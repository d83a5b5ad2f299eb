/** The theory behind priority inheritance, on three maps: `prio` is the running priority of each
    task (smaller is more urgent), `base` the priority it was given, and `wf` the wait-for edges,
    from a task blocked on a mutex to the owner of that mutex. Deadlock cycles are allowed. */
module PriorityInheritance {
  import opened KernelTypes

  /** `p` is the least of `b` and the priorities of the tasks that wait for `t`. */
  ghost predicate IsMin(p: nat, b: nat, t: Task, wf: map<Task, Task>, prio: map<Task, nat>)
    requires wf.Keys <= prio.Keys
  {
    && p <= b
    && (forall u :: u in wf && wf[u] == t ==> p <= prio[u])
    && (p == b || exists u :: u in wf && wf[u] == t && prio[u] == p)
  }

  ghost predicate Graph(prio: map<Task, nat>, base: map<Task, nat>, wf: map<Task, Task>) {
    && base.Keys <= prio.Keys
    && wf.Keys <= base.Keys
    && (forall u :: u in wf ==> wf[u] in base && wf[u] != u)
  }

  ghost predicate FixAt(t: Task, prio: map<Task, nat>, base: map<Task, nat>, wf: map<Task, Task>)
    requires Graph(prio, base, wf) && t in base
  {
    IsMin(prio[t], base[t], t, wf, prio)
  }

  /** Every task runs at exactly the priority it inherits. */
  ghost predicate Fix(prio: map<Task, nat>, base: map<Task, nat>, wf: map<Task, Task>)
    requires Graph(prio, base, wf)
  {
    forall t :: t in base ==> FixAt(t, prio, base, wf)
  }

  ghost predicate FixExcept(x: Task, prio: map<Task, nat>, base: map<Task, nat>, wf: map<Task, Task>)
    requires Graph(prio, base, wf)
  {
    forall t :: t in base && t != x ==> FixAt(t, prio, base, wf)
  }

  /** Moving `t` to the value it inherits settles `t` and can only unsettle the task it waits for. */
  lemma OthersKeep(t: Task, p: nat, prio: map<Task, nat>, base: map<Task, nat>, wf: map<Task, Task>)
    requires Graph(prio, base, wf) && t in base
    requires FixExcept(t, prio, base, wf)
    requires IsMin(p, base[t], t, wf, prio)
    ensures Graph(prio[t := p], base, wf)
    ensures forall x :: x in base && (t in wf ==> x != wf[t]) ==> FixAt(x, prio[t := p], base, wf)
  {
    var prio' := prio[t := p];
    forall x | x in base && (t in wf ==> x != wf[t])
      ensures FixAt(x, prio', base, wf)
    {
      if x == t {
        if p != base[t] {
          var u :| u in wf && wf[u] == t && prio[u] == p;
          assert u != t && prio'[u] == p;
        }
      } else {
        assert FixAt(x, prio, base, wf);
        if prio[x] != base[x] {
          var u :| u in wf && wf[u] == x && prio[u] == prio[x];
          assert prio'[u] == prio[x];
        }
      }
    }
  }

  /** `t` gained urgency: the owner it waits for inherits that, unless it is as urgent already. */
  lemma RaisedOwner(t: Task, p: nat, prio: map<Task, nat>, base: map<Task, nat>, wf: map<Task, Task>)
    requires Graph(prio, base, wf) && t in wf && FixAt(wf[t], prio, base, wf) && p < prio[t]
    ensures Graph(prio[t := p], base, wf)
    ensures prio[wf[t]] > p ==> IsMin(p, base[wf[t]], wf[t], wf, prio[t := p])
    ensures prio[wf[t]] <= p ==> FixAt(wf[t], prio[t := p], base, wf)
  {
    var o, prio' := wf[t], prio[t := p];
    assert prio'[t] == p;
    if prio[o] <= p && prio[o] != base[o] {
      var u :| u in wf && wf[u] == o && prio[u] == prio[o];
      assert prio'[u] == prio[o];
    }
  }

  /** `t` lost urgency: an owner that did not have its priority inherited from elsewhere. */
  lemma LoweredOwner(t: Task, p: nat, prio: map<Task, nat>, base: map<Task, nat>, wf: map<Task, Task>)
    requires Graph(prio, base, wf) && t in wf && FixAt(wf[t], prio, base, wf) && p > prio[t]
    ensures Graph(prio[t := p], base, wf)
    ensures prio[wf[t]] <= prio[t]
    ensures prio[wf[t]] != prio[t] ==> FixAt(wf[t], prio[t := p], base, wf)
  {
    var o, prio' := wf[t], prio[t := p];
    if prio[o] != prio[t] && prio[o] != base[o] {
      var u :| u in wf && wf[u] == o && prio[u] == prio[o];
      assert prio'[u] == prio[o];
    }
  }

  /** The tests of `task_pri_change` after `t` has moved to `p`, where `o` is the owner `t` waits for: if `o` is
      less urgent than `t`, then `p` is what `o` inherits; else, unless `o` had the old priority of `t`, nothing
      is left to do; else `t` lost urgency and `o` may have to follow. */
  lemma PropagationCases(t: Task, p: nat, prio: map<Task, nat>, base: map<Task, nat>, wf: map<Task, Task>)
    requires Graph(prio, base, wf) && t in base
    requires FixExcept(t, prio, base, wf)
    requires IsMin(p, base[t], t, wf, prio) && p != prio[t]
    ensures Graph(prio[t := p], base, wf)
    ensures t !in wf ==> Fix(prio[t := p], base, wf)
    ensures t in wf ==> FixExcept(wf[t], prio[t := p], base, wf)
    ensures t in wf && prio[wf[t]] > p ==> p < prio[t] && IsMin(p, base[wf[t]], wf[t], wf, prio[t := p])
    ensures t in wf && prio[wf[t]] <= p && prio[wf[t]] != prio[t] ==> Fix(prio[t := p], base, wf)
    ensures t in wf && prio[wf[t]] <= p && prio[wf[t]] == prio[t] ==> p > prio[t]
  {
    hide IsMin;
    OthersKeep(t, p, prio, base, wf);
    if t in wf && p < prio[t] {
      RaisedOwner(t, p, prio, base, wf);
    } else if t in wf {
      LoweredOwner(t, p, prio, base, wf);
    }
  }

  /** What the owner inherits after `t` lost urgency is no more urgent than before. */
  lemma FollowerLoses(t: Task, p: nat, q: nat, prio: map<Task, nat>, base: map<Task, nat>, wf: map<Task, Task>)
    requires Graph(prio, base, wf) && t in wf && FixExcept(t, prio, base, wf) && p > prio[t]
    requires IsMin(q, base[wf[t]], wf[t], wf, prio[t := p])
    ensures q >= prio[wf[t]]
  {
    assert FixAt(wf[t], prio, base, wf);
  }

  lemma IsMinUnique(p: nat, q: nat, b: nat, t: Task, wf: map<Task, Task>, prio: map<Task, nat>)
    requires wf.Keys <= prio.Keys
    requires IsMin(p, b, t, wf, prio) && IsMin(q, b, t, wf, prio)
    ensures p == q
  {
  }

  lemma MinBelowBase(q: nat, o: Task, prio: map<Task, nat>, base: map<Task, nat>, wf: map<Task, Task>)
    requires Graph(prio, base, wf) && o in base && IsMin(q, base[o], o, wf, prio)
    ensures q <= base[o]
  {
  }

  lemma MinIsFix(q: nat, o: Task, prio: map<Task, nat>, base: map<Task, nat>, wf: map<Task, Task>)
    requires Graph(prio, base, wf) && Fix(prio, base, wf) && o in base && IsMin(q, base[o], o, wf, prio)
    ensures q == prio[o]
  {
    assert FixAt(o, prio, base, wf);
    IsMinUnique(q, prio[o], base[o], o, wf, prio);
  }

  lemma Settled(o: Task, prio: map<Task, nat>, base: map<Task, nat>, wf: map<Task, Task>)
    requires Graph(prio, base, wf) && o in base && FixExcept(o, prio, base, wf) && IsMin(prio[o], base[o], o, wf, prio)
    ensures Fix(prio, base, wf)
  {
  }

  // ----- What the fixpoint means -----

  /** `path` leads from `path[0]` along wait-for edges to its last task. */
  ghost predicate Path(path: seq<Task>, wf: map<Task, Task>) {
    && path != []
    && (forall i :: 0 <= i < |path| - 1 ==> path[i] in wf && wf[path[i]] == path[i + 1])
  }

  /** `u` waits for `t`, directly or through a chain of owners. */
  ghost predicate WaitsFor(u: Task, t: Task, wf: map<Task, Task>) {
    exists path :: Path(path, wf) && path[0] == u && path[|path| - 1] == t
  }

  ghost predicate Deadlocked(u: Task, wf: map<Task, Task>) {
    u in wf && WaitsFor(wf[u], u, wf)
  }

  /** Along a chain of owners priorities never get less urgent. */
  lemma {:induction false} UrgencyAlongPath(path: seq<Task>, prio: map<Task, nat>, base: map<Task, nat>,
      wf: map<Task, Task>)
    requires Graph(prio, base, wf) && Fix(prio, base, wf)
    requires Path(path, wf) && path[0] in base
    ensures path[|path| - 1] in base && prio[path[|path| - 1]] <= prio[path[0]]
  {
    if |path| > 1 {
      var front := path[..|path| - 1];
      assert Path(front, wf);
      UrgencyAlongPath(front, prio, base, wf);
      var u, t := path[|path| - 2], path[|path| - 1];
      assert front[|front| - 1] == u;
      assert u in wf && wf[u] == t;
      assert FixAt(t, prio, base, wf);
    }
  }

  /** A task is at least as urgent as every task that waits for it. */
  lemma OwnerAsUrgentAsWaiters(u: Task, t: Task, prio: map<Task, nat>, base: map<Task, nat>, wf: map<Task, Task>)
    requires Graph(prio, base, wf) && Fix(prio, base, wf)
    requires u in base && WaitsFor(u, t, wf)
    ensures t in base && prio[t] <= prio[u] <= base[u]
  {
    var path :| Path(path, wf) && path[0] == u && path[|path| - 1] == t;
    UrgencyAlongPath(path, prio, base, wf);
    assert FixAt(u, prio, base, wf);
  }

  lemma WaitsForTrans(u: Task, v: Task, t: Task, wf: map<Task, Task>)
    requires u in wf && wf[u] == v && WaitsFor(v, t, wf)
    ensures WaitsFor(u, t, wf)
  {
    var path :| Path(path, wf) && path[0] == v && path[|path| - 1] == t;
    var longer := [u] + path;
    assert Path(longer, wf);
  }

  lemma WaitsForSelf(t: Task, wf: map<Task, Task>)
    ensures WaitsFor(t, t, wf)
  {
    assert Path([t], wf);
  }

  /** The priority of a task that no deadlock leads to is the base priority of some task that waits for it
      (or its own): following the task it inherits from must stop, since `done` cannot grow for ever. */
  lemma {:induction false} InheritedFrom(t: Task, s: Task, done: set<Task>, prio: map<Task, nat>, base: map<Task, nat>,
      wf: map<Task, Task>)
    returns (u: Task)
    requires Graph(prio, base, wf) && Fix(prio, base, wf) && t in base
    requires forall v :: v in base && Deadlocked(v, wf) ==> !WaitsFor(v, s, wf)
    requires WaitsFor(t, s, wf)
    requires done <= base.Keys
    requires t !in done && (forall v :: v in done ==> WaitsFor(t, v, wf))
    ensures u in base && WaitsFor(u, s, wf) && base[u] == prio[t]
    decreases base.Keys - done
  {
    assert FixAt(t, prio, base, wf);
    if prio[t] == base[t] {
      u := t;
    } else {
      var v :| v in wf && wf[v] == t && prio[v] == prio[t];
      WaitsForTrans(v, t, s, wf);
      if v == t || v in done {
        WaitsForSelf(t, wf);
        assert false;
      }
      forall x | x in done + {t}
        ensures WaitsFor(v, x, wf)
      {
        if x == t {
          WaitsForSelf(t, wf);
        }
        WaitsForTrans(v, t, x, wf);
      }
      u := InheritedFrom(v, s, done + {t}, prio, base, wf);
    }
  }

  /** The reference meaning of priority inheritance: a task that no deadlock leads to runs at the most
      urgent base priority among itself and all tasks blocked behind it, however long the chains are. */
  lemma FixIsTransitiveMinimum(t: Task, prio: map<Task, nat>, base: map<Task, nat>, wf: map<Task, Task>)
    requires Graph(prio, base, wf) && Fix(prio, base, wf) && t in base
    requires forall v :: v in base && Deadlocked(v, wf) ==> !WaitsFor(v, t, wf)
    ensures forall u :: u in base && WaitsFor(u, t, wf) ==> prio[t] <= base[u]
    ensures exists u :: u in base && WaitsFor(u, t, wf) && prio[t] == base[u]
  {
    forall u | u in base && WaitsFor(u, t, wf)
      ensures prio[t] <= base[u]
    {
      OwnerAsUrgentAsWaiters(u, t, prio, base, wf);
    }
    WaitsForSelf(t, wf);
    var u := InheritedFrom(t, t, {}, prio, base, wf);
  }

  /** Without deadlock the base priorities and the wait-for edges determine every running priority. */
  lemma FixUnique(p: map<Task, nat>, q: map<Task, nat>, base: map<Task, nat>, wf: map<Task, Task>)
    requires Graph(p, base, wf) && Fix(p, base, wf)
    requires Graph(q, base, wf) && Fix(q, base, wf)
    requires forall v :: v in base ==> !Deadlocked(v, wf)
    ensures forall t :: t in base ==> p[t] == q[t]
  {
    forall t | t in base
      ensures p[t] == q[t]
    {
      FixIsTransitiveMinimum(t, p, base, wf);
      FixIsTransitiveMinimum(t, q, base, wf);
    }
  }

  /** A deadlock supports its own priorities: its members, and all tasks behind them, may sit at the most urgent value
      and still satisfy the fixpoint. */
  lemma DeadlockNotUnique(v: Task, prio: map<Task, nat>, base: map<Task, nat>, wf: map<Task, Task>)
      returns (other: map<Task, nat>)
    requires Graph(prio, base, wf) && Fix(prio, base, wf)
    requires v in base && Deadlocked(v, wf)
    ensures Graph(other, base, wf) && Fix(other, base, wf) && other[v] == 0
  {
    other := map t | t in prio :: if WaitsFor(v, t, wf) then 0 else prio[t];
    WaitsForSelf(v, wf);
    assert other[v] == 0;
    forall t | t in base
      ensures FixAt(t, other, base, wf)
    {
      assert FixAt(t, prio, base, wf);
      if WaitsFor(v, t, wf) {
        var u := Predecessor(v, t, wf);
        UrgencyKeys(v, u, prio, base, wf);
        assert u in wf && wf[u] == t && other[u] == 0;
      } else {
        forall u | u in wf && wf[u] == t
          ensures other[u] == prio[u]
        {
          if WaitsFor(v, u, wf) {
            WaitsForStep(v, u, wf);
          }
        }
      }
    }
  }

  /** `m` is the most urgent base priority of `t` and the tasks that wait for it. */
  ghost predicate IsLeast(m: nat, t: Task, base: map<Task, nat>, wf: map<Task, Task>) {
    && (forall u :: u in base && WaitsFor(u, t, wf) ==> m <= base[u])
    && (exists u :: u in base && WaitsFor(u, t, wf) && m == base[u])
  }

  lemma {:induction false} LeastExists(t: Task, u: Task, base: map<Task, nat>, wf: map<Task, Task>) returns (m: nat)
    requires u in base && WaitsFor(u, t, wf)
    ensures IsLeast(m, t, base, wf)
    decreases base[u]
  {
    if x :| x in base && WaitsFor(x, t, wf) && base[x] < base[u] {
      m := LeastExists(t, x, base, wf);
    } else {
      m := base[u];
    }
  }

  ghost function Least(t: Task, base: map<Task, nat>, wf: map<Task, Task>): (m: nat)
    requires t in base
    ensures IsLeast(m, t, base, wf)
  {
    assert exists m: nat :: IsLeast(m, t, base, wf) by {
      WaitsForSelf(t, wf);
      var m := LeastExists(t, t, base, wf);
    }
    var m: nat :| IsLeast(m, t, base, wf);
    m
  }

  lemma LeastStep(u: Task, mu: nat, mt: nat, base: map<Task, nat>, wf: map<Task, Task>)
    requires u in wf && IsLeast(mu, u, base, wf) && IsLeast(mt, wf[u], base, wf)
    ensures mt <= mu
  {
    hide WaitsFor;
    var x :| x in base && WaitsFor(x, u, wf) && mu == base[x];
    WaitsForStep(x, u, wf);
  }

  lemma LeastFrom(t: Task, m: nat, base: map<Task, nat>, wf: map<Task, Task>) returns (w: Task)
    requires t in base && IsLeast(m, t, base, wf) && m != base[t]
    ensures w in wf && wf[w] == t && IsLeast(m, w, base, wf)
  {
    hide WaitsFor;
    var x :| x in base && WaitsFor(x, t, wf) && m == base[x];
    w := LastWaiter(x, t, wf);
    forall u | u in base && WaitsFor(u, w, wf)
      ensures m <= base[u]
    {
      WaitsForStep(u, w, wf);
    }
  }

  lemma LeastBounds(t: Task, m: nat, base: map<Task, nat>, wf: map<Task, Task>)
    requires t in base && IsLeast(m, t, base, wf)
    ensures m <= base[t] && (m == 0 ==> Topped(t, base, wf)) && forall k: nat :: IsLeast(k, t, base, wf) ==> k == m
  {
    WaitsForSelf(t, wf);
    hide WaitsFor;
  }

  /** There is always an assignment that satisfies the fixpoint: the transitive minimum. */
  lemma FixExists(base: map<Task, nat>, wf: map<Task, Task>) returns (prio: map<Task, nat>)
    requires Graph(base, base, wf)
    ensures Solution(prio, base, wf) && forall t :: t in base ==> IsLeast(prio[t], t, base, wf)
  {
    hide IsLeast, IsMin;
    prio := map t | t in base :: Least(t, base, wf);
    forall t | t in base
      ensures FixAt(t, prio, base, wf)
    {
      LeastIsFix(t, prio, base, wf);
    }
  }

  lemma LeastIsFix(t: Task, prio: map<Task, nat>, base: map<Task, nat>, wf: map<Task, Task>)
    requires Graph(prio, base, wf) && t in base && forall x :: x in base ==> IsLeast(prio[x], x, base, wf)
    ensures FixAt(t, prio, base, wf)
  {
    hide IsLeast;
    LeastBounds(t, prio[t], base, wf);
    forall u | u in wf && wf[u] == t
      ensures prio[t] <= prio[u]
    {
      LeastStep(u, prio[u], prio[t], base, wf);
    }
    if prio[t] != base[t] {
      var w := LeastFrom(t, prio[t], base, wf);
      LeastBounds(w, prio[w], base, wf);
    }
  }

  lemma LastWaiter(x: Task, t: Task, wf: map<Task, Task>) returns (w: Task)
    requires WaitsFor(x, t, wf) && x != t
    ensures w in wf && wf[w] == t && WaitsFor(x, w, wf)
  {
    var path :| Path(path, wf) && path[0] == x && path[|path| - 1] == t;
    w := path[|path| - 2];
    assert Path(path[..|path| - 1], wf);
  }

  ghost predicate Solution(prio: map<Task, nat>, base: map<Task, nat>, wf: map<Task, Task>) {
    Graph(prio, base, wf) && Fix(prio, base, wf)
  }

  ghost predicate Unique(base: map<Task, nat>, wf: map<Task, Task>) {
    forall p, q, t | Solution(p, base, wf) && Solution(q, base, wf) && t in base :: p[t] == q[t]
  }

  /** Someone of base priority 0, the most urgent one, waits for `v`, or `v` is such a task. */
  ghost predicate Topped(v: Task, base: map<Task, nat>, wf: map<Task, Task>) {
    exists u :: u in base && WaitsFor(u, v, wf) && base[u] == 0
  }

  /** The base priorities and the wait-for edges determine every running priority if and only if every deadlock is as
      urgent as can be. */
  lemma UniqueIffDeadlocksTopped(base: map<Task, nat>, wf: map<Task, Task>)
    requires Graph(base, base, wf)
    ensures Unique(base, wf) <==> forall v :: v in base && Deadlocked(v, wf) ==> Topped(v, base, wf)
  {
    hide Path, WaitsFor, Deadlocked, Topped, IsLeast, Fix, FixAt;
    var least := FixExists(base, wf);
    forall v | v in base && Deadlocked(v, wf) && !Topped(v, base, wf)
      ensures !Unique(base, wf)
    {
      var other := DeadlockNotUnique(v, least, base, wf);
      LeastBounds(v, least[v], base, wf);
      assert Solution(least, base, wf) && Solution(other, base, wf) && least[v] != other[v];
    }
    if forall v :: v in base && Deadlocked(v, wf) ==> Topped(v, base, wf) {
      forall p, q, t | Solution(p, base, wf) && Solution(q, base, wf) && t in base
        ensures p[t] == q[t]
      {
        SolutionsAgree(t, p, q, base, wf);
      }
    }
  }

  lemma SolutionsAgree(t: Task, p: map<Task, nat>, q: map<Task, nat>, base: map<Task, nat>, wf: map<Task, Task>)
    requires Solution(p, base, wf) && Solution(q, base, wf) && t in base
    requires forall v :: v in base && Deadlocked(v, wf) ==> Topped(v, base, wf)
    ensures p[t] == q[t]
  {
    hide Path, WaitsFor, Deadlocked, FixAt;
    if v :| v in base && Deadlocked(v, wf) && WaitsFor(v, t, wf) {
      var u :| u in base && WaitsFor(u, v, wf) && base[u] == 0;
      OwnerAsUrgentAsWaiters(u, v, p, base, wf);
      OwnerAsUrgentAsWaiters(u, v, q, base, wf);
      OwnerAsUrgentAsWaiters(v, t, p, base, wf);
      OwnerAsUrgentAsWaiters(v, t, q, base, wf);
    } else {
      FixIsTransitiveMinimum(t, p, base, wf);
      FixIsTransitiveMinimum(t, q, base, wf);
    }
  }

  lemma WaitsForStep(v: Task, u: Task, wf: map<Task, Task>)
    requires WaitsFor(v, u, wf) && u in wf
    ensures WaitsFor(v, wf[u], wf)
  {
    var path :| Path(path, wf) && path[0] == v && path[|path| - 1] == u;
    assert Path(path + [wf[u]], wf);
  }

  lemma WaiterHasEdge(u: Task, t: Task, wf: map<Task, Task>)
    requires WaitsFor(u, t, wf)
    ensures u == t || u in wf
  {
  }

  /** Every task behind a deadlocked one has a waiter behind it too. */
  lemma Predecessor(v: Task, t: Task, wf: map<Task, Task>) returns (u: Task)
    requires Deadlocked(v, wf) && WaitsFor(v, t, wf)
    ensures u in wf && wf[u] == t && WaitsFor(v, u, wf)
  {
    var path :| Path(path, wf) && path[0] == v && path[|path| - 1] == t;
    if |path| > 1 {
      u := path[|path| - 2];
      assert Path(path[..|path| - 1], wf);
    } else {
      var loop :| Path(loop, wf) && loop[0] == wf[v] && loop[|loop| - 1] == v;
      var longer := [v] + loop;
      assert Path(longer, wf);
      u := longer[|longer| - 2];
      assert Path(longer[..|longer| - 1], wf);
    }
  }

  lemma UrgencyKeys(v: Task, u: Task, prio: map<Task, nat>, base: map<Task, nat>, wf: map<Task, Task>)
    requires Graph(prio, base, wf) && Fix(prio, base, wf)
    requires v in base && WaitsFor(v, u, wf)
    ensures u in base
  {
    OwnerAsUrgentAsWaiters(v, u, prio, base, wf);
  }

  // ----- Edits of the wait-for graph -----

  /** A mutex goes to its first waiter: where everyone has the priority they inherit without the queue (`wf` leaves
      those edges out), they still have it once the queue is behind the new owner. */
  lemma Grant(n: Task, rest: set<Task>, prio: map<Task, nat>, base: map<Task, nat>, wf: map<Task, Task>,
      wf': map<Task, Task>)
    requires Graph(prio, base, wf) && Graph(prio, base, wf')
    requires Fix(prio, base, wf)
    requires rest !! wf.Keys && wf'.Keys == wf.Keys + rest
    requires forall u :: u in wf ==> wf'[u] == wf[u]
    requires forall u :: u in rest ==> wf'[u] == n && n in prio && prio[n] <= prio[u]
    ensures Fix(prio, base, wf')
  {
    forall t | t in base
      ensures FixAt(t, prio, base, wf')
    {
      assert FixAt(t, prio, base, wf);
      if prio[t] != base[t] {
        var u :| u in wf && wf[u] == t && prio[u] == prio[t];
        assert u in wf' && wf'[u] == t;
      }
    }
  }

  /** An owner gives up a mutex: only edges that pointed to it disappear. */
  lemma DropEdges(o: Task, prio: map<Task, nat>, base: map<Task, nat>, wf: map<Task, Task>, wf': map<Task, Task>)
    requires Graph(prio, base, wf) && Fix(prio, base, wf)
    requires forall u :: u in wf' ==> u in wf && wf'[u] == wf[u]
    requires forall u :: u in wf && u !in wf' ==> wf[u] == o
    ensures Graph(prio, base, wf') && FixExcept(o, prio, base, wf')
  {
    forall t | t in base && t != o
      ensures FixAt(t, prio, base, wf')
    {
      assert FixAt(t, prio, base, wf);
      if prio[t] != base[t] {
        var u :| u in wf && wf[u] == t && prio[u] == prio[t];
        assert u in wf' && wf'[u] == t;
      }
    }
  }

  /** A waiter leaves whose owner has as much from another one. */
  lemma DropSpareEdge(x: Task, y: Task, prio: map<Task, nat>, base: map<Task, nat>, wf: map<Task, Task>)
    requires Graph(prio, base, wf) && Fix(prio, base, wf) && x in wf && y in wf && x != y && wf[x] == wf[y] &&
      prio[y] == prio[wf[y]]
    ensures Graph(prio, base, wf - {x}) && Fix(prio, base, wf - {x})
  {
    DropEdge(x, prio, base, wf);
    var o, wf' := wf[x], wf - {x};
    assert FixAt(o, prio, base, wf);
    assert y in wf' && wf'[y] == o;
    assert FixAt(o, prio, base, wf');
  }

  /** Removing one wait-for edge can only unsettle the owner it pointed to. */
  lemma DropEdge(x: Task, prio: map<Task, nat>, base: map<Task, nat>, wf: map<Task, Task>)
    requires Graph(prio, base, wf) && Fix(prio, base, wf) && x in wf
    ensures Graph(prio, base, wf - {x})
    ensures FixExcept(wf[x], prio, base, wf - {x})
    ensures prio[wf[x]] <= prio[x]
    ensures prio[wf[x]] != prio[x] ==> Fix(prio, base, wf - {x})
  {
    var o, wf' := wf[x], wf - {x};
    forall t | t in base && (t != o || prio[o] != prio[x])
      ensures FixAt(t, prio, base, wf')
    {
      assert FixAt(t, prio, base, wf);
      if prio[t] != base[t] {
        var u :| u in wf && wf[u] == t && prio[u] == prio[t];
        assert u in wf' && wf'[u] == t;
      }
    }
    assert FixAt(o, prio, base, wf);
  }

  /** A task nobody waits for disappears together with its own edge. */
  lemma DropTask(d: Task, prio: map<Task, nat>, base: map<Task, nat>, wf: map<Task, Task>)
    requires Graph(prio, base, wf) && FixExcept(d, prio, base, wf) && d in base
    requires forall u :: u in wf ==> wf[u] != d
    ensures Graph(prio, base - {d}, wf - {d})
    ensures d !in wf ==> Fix(prio, base - {d}, wf - {d})
    ensures d in wf ==> prio[wf[d]] <= prio[d] && FixExcept(wf[d], prio, base - {d}, wf - {d})
    ensures d in wf && prio[wf[d]] != prio[d] ==> Fix(prio, base - {d}, wf - {d})
  {
    var base', wf' := base - {d}, wf - {d};
    forall t | t in base' && (d in wf && t == wf[d] ==> prio[t] != prio[d])
      ensures FixAt(t, prio, base', wf')
    {
      assert FixAt(t, prio, base, wf);
      if prio[t] != base[t] {
        var u :| u in wf && wf[u] == t && prio[u] == prio[t];
        assert u in wf' && wf'[u] == t;
      }
    }
    if d in wf {
      assert FixAt(wf[d], prio, base, wf);
    }
  }

  /** Adding the edge of a task that blocks behind an owner at least as urgent as itself. */
  lemma AddEdge(x: Task, o: Task, prio: map<Task, nat>, base: map<Task, nat>, wf: map<Task, Task>)
    requires Graph(prio, base, wf) && Fix(prio, base, wf)
    requires x in base && x !in wf && o in base && o != x && prio[o] <= prio[x]
    ensures Graph(prio, base, wf[x := o])
    ensures Fix(prio, base, wf[x := o])
  {
    var wf' := wf[x := o];
    forall t | t in base
      ensures FixAt(t, prio, base, wf')
    {
      assert FixAt(t, prio, base, wf);
      if prio[t] != base[t] {
        var u :| u in wf && wf[u] == t && prio[u] == prio[t];
        assert u in wf' && wf'[u] == t;
      }
    }
  }

  lemma NewTask(t: Task, b: nat, prio: map<Task, nat>, base: map<Task, nat>, wf: map<Task, Task>)
    requires Graph(prio, base, wf) && Fix(prio, base, wf) && t !in base
    ensures Graph(prio[t := b], base[t := b], wf) && Fix(prio[t := b], base[t := b], wf)
  {
    forall x | x in base
      ensures FixAt(x, prio[t := b], base[t := b], wf)
    {
      assert FixAt(x, prio, base, wf);
      if prio[x] != base[x] {
        var u :| u in wf && wf[u] == x && prio[u] == prio[x];
        assert prio[t := b][u] == prio[x];
      }
    }
    assert FixAt(t, prio[t := b], base[t := b], wf);
  }

  lemma Rebase(t: Task, b: nat, prio: map<Task, nat>, base: map<Task, nat>, wf: map<Task, Task>)
    requires Graph(prio, base, wf) && Fix(prio, base, wf) && t in base
    ensures Graph(prio, base[t := b], wf) && FixExcept(t, prio, base[t := b], wf)
  {
    forall x | x in base && x != t
      ensures FixAt(x, prio, base[t := b], wf)
    {
      assert FixAt(x, prio, base, wf);
    }
  }

  lemma Lend(o: Task, p: nat, prio: map<Task, nat>, base: map<Task, nat>, wf: map<Task, Task>)
    requires Graph(prio, base, wf) && Fix(prio, base, wf) && o in base && p < prio[o]
    ensures p <= base[o] && Graph(prio, base[o := p], wf) && FixExcept(o, prio, base[o := p], wf)
    ensures IsMin(p, p, o, wf, prio)
  {
    assert FixAt(o, prio, base, wf);
    forall t | t in base && t != o
      ensures FixAt(t, prio, base[o := p], wf)
    {
      assert FixAt(t, prio, base, wf);
    }
  }

  /** Lending: before `x` blocks behind a less urgent `o`, the priority of `x` is passed to `o` as if it were
      its base priority. Once the edge is there it explains that priority. */
  lemma LoanBecomesEdge(x: Task, o: Task, prio: map<Task, nat>, base: map<Task, nat>, wf: map<Task, Task>)
    requires Graph(prio, base, wf) && x in base && x !in wf && o in base && o != x
    requires prio[x] <= base[o] && Fix(prio, base[o := prio[x]], wf)
    ensures Graph(prio, base, wf[x := o])
    ensures Fix(prio, base, wf[x := o])
  {
    hide IsMin;
    forall t | t in base
      ensures FixAt(t, prio, base, wf[x := o])
    {
      assert FixAt(t, prio, base[o := prio[x]], wf);
      LoanAt(t, x, o, prio, base, wf);
    }
  }

  lemma LoanAt(t: Task, x: Task, o: Task, prio: map<Task, nat>, base: map<Task, nat>, wf: map<Task, Task>)
    requires Graph(prio, base, wf) && x in base && x !in wf && o in base && o != x && t in base
    requires prio[x] <= base[o] && IsMin(prio[t], base[o := prio[x]][t], t, wf, prio)
    ensures IsMin(prio[t], base[t], t, wf[x := o], prio)
  {
    var wf' := wf[x := o];
    assert wf'[x] == o;
    if prio[t] != base[o := prio[x]][t] {
      var u :| u in wf && wf[u] == t && prio[u] == prio[t];
      assert u in wf' && wf'[u] == t;
    }
  }
}
