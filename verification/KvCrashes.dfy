/** Whole runs of the key-value store that are cut by a crash, and the start after it. */
module KvCrashes {
  import opened KernelTypes
  import opened KvNodes
  import opened KvMaps
  import opened KvStores

  datatype Op = SetOp(key: Key, value: Value) | RmOp(key: Key)

  function Applied(m: map<Key, Value>, op: Op): map<Key, Value> {
    match op
    case SetOp(key, value) => m[key := value]
    case RmOp(key) => m - {key}
  }

  /** What the operation does to the nodes, and what it answers. */
  ghost predicate Done(op: Op, s: State, s': State, size: nat, r: int) {
    match op
    case SetOp(key, value) => SetDone(s, s', key, value, size, r)
    case RmOp(key) => RmDone(s, s', key) && r == if HasKey(s.nodes, key) then 0 else -1
  }

  predicate Succeeded(op: Op, r: int) {
    match op
    case SetOp(_, value) => r == |value|
    case RmOp(_) => r == 0
  }

  /** The store before each operation and at the end: its nodes, the map they mean, and how many writes and erases
      there were. */
  datatype Run = Run(states: seq<State>, maps: seq<map<Key, Value>>, marks: seq<nat>)

  ghost predicate Counted(run: Run, n: nat) {
    |run.states| == |run.maps| == |run.marks| == n
  }

  /** Operation `j` does what its answer says. */
  ghost predicate StepOk(run: Run, ops: seq<Op>, results: seq<int>, size: nat, j: nat)
    requires j < |ops| && j < |results| && j + 1 < |run.states| && Counted(run, |run.states|)
  {
    && Done(ops[j], run.states[j], run.states[j + 1], size, results[j]) && run.marks[j] <= run.marks[j + 1]
    && run.maps[j + 1] == if Succeeded(ops[j], results[j]) then Applied(run.maps[j], ops[j]) else run.maps[j]
  }

  /** What a crash during operation `j` leaves in flash means the map before it or the one it makes, and what its last
      write leaves is what the next operation finds. */
  ghost predicate StepLogged(run: Run, ops: seq<Op>, log: seq<seq<seq<Node>>>, j: nat)
    requires j < |ops| && j + 1 < |run.states| && Counted(run, |run.states|)
  {
    && run.marks[j] <= run.marks[j + 1] <= |log|
    && (forall k :: run.marks[j] <= k < run.marks[j + 1] ==>
       Recoverable(log[k], run.maps[j]) || Recoverable(log[k], Applied(run.maps[j], ops[j])))
    && (run.marks[j] < run.marks[j + 1] ==> Recoverable(log[run.marks[j + 1] - 1], run.maps[j + 1]))
  }

  /** All of it, from flash that held the nodes `n` and meant the map `m`. */
  ghost predicate RunOk(run: Run, ops: seq<Op>, results: seq<int>, log: seq<seq<seq<Node>>>, n: seq<seq<Node>>,
      m: map<Key, Value>, size: nat) {
    && Counted(run, |ops| + 1) && |results| == |ops| && BootDone(n, run.states[0], size) && run.maps[0] == m &&
       run.marks[0] <= |log|
    && (forall k :: 0 <= k < run.marks[0] ==> Recoverable(log[k], m))
    && (forall j :: 0 <= j < |ops| ==> StepOk(run, ops, results, size, j) && StepLogged(run, ops, log, j))
  }

  /** Operation `i` was under way at write `cut`; 0 stands for the first start as well, and `|ops|` for the time after
      the run. */
  ghost predicate UnderWay(marks: seq<nat>, cut: nat, i: nat) {
    i < |marks| && (i > 0 ==> marks[i] <= cut) && (i + 1 < |marks| ==> cut < marks[i + 1])
  }

  /** What is left: all that operations before `i` have done, and operation `i` as a whole, or nothing of it. */
  ghost predicate Survives(m: map<Key, Value>, run: Run, ops: seq<Op>, cut: nat, i: nat)
    requires Counted(run, |ops| + 1) && i <= |ops|
  {
    && (m == run.maps[i] || (i < |ops| && m == Applied(run.maps[i], ops[i])))
    && (i == |ops| || cut < run.marks[0] ==> m == run.maps[i])
    && (i < |ops| && run.marks[i] <= cut && cut + 1 == run.marks[i + 1] ==> m == run.maps[i + 1])
  }

  method Do(s: KvStore, op: Op) returns (r: int)
    requires s.Valid() && (op.SetOp? ==> KeyOk(op.key))
    modifies s`blocks, s`nodes, s`log, s`images, s`bid, s`gcBid, s`model
    ensures s.Traced(old(s.images), old(Image(s.blocks)))
    ensures s.Valid() && s.model == (if Succeeded(op, r) then Applied(old(s.model), op) else old(s.model)) &&
      old(s.log) <= s.log
    ensures Done(op, old(s.St()), s.St(), s.size, r) && s.Written(|old(s.log)|)
    ensures forall k :: |old(s.log)| <= k < |s.log| ==>
      Recoverable(s.log[k], old(s.model)) || Recoverable(s.log[k], Applied(old(s.model), op))
  {
    hide KvStore.Valid, Recoverable, SetDone, RmDone, HasKey;
    match op
    case SetOp(key, value) =>
      r := s.Set(key, value);
      Refused(value, r);
    case RmOp(key) =>
      Known(s, key);
      var ok := s.Rm(key);
      r := if ok then 0 else -1;
  }

  lemma Refused(value: Value, r: int)
    requires r in {-2, -1, |value|}
    ensures r == |value| <==> r >= 0
  {
  }

  lemma Known(s: KvStore, key: Key)
    requires s.Valid()
    ensures HasKey(s.nodes, key) <==> key in s.model
    ensures key !in s.model ==> s.model - {key} == s.model
  {
    hide BlocksOk, LogOk, Unique;
    KeyKnown(s.nodes, s.model, key);
  }

  /** The run grows by one operation. */
  lemma Longer(run: Run, run': Run, ops: seq<Op>, results: seq<int>, r: int, log: seq<seq<seq<Node>>>,
      log': seq<seq<seq<Node>>>, n: seq<seq<Node>>,
               m: map<Key, Value>, size: nat, s: State, m': map<Key, Value>)
    requires |results| < |ops| && log <= log' && RunOk(run, ops[..|results|], results, log, n, m, size) &&
      run.marks[|results|] == |log|
    requires run' == Run(run.states + [s], run.maps + [m'], run.marks + [|log'|])
    requires StepOk(run', ops, results + [r], size, |results|) && StepLogged(run', ops, log', |results|)
    ensures RunOk(run', ops[..|results| + 1], results + [r], log', n, m, size)
  {
    hide Done, Recoverable, BootDone, Applied, Succeeded;
    var l, ops', results' := |results|, ops[..|results| + 1], results + [r];
    forall j | 0 <= j < |ops'|
      ensures StepOk(run', ops', results', size, j) && StepLogged(run', ops', log', j)
    {
      if j < l {
        assert StepOk(run, ops[..l], results, size, j) && StepLogged(run, ops[..l], log, j);
      }
    }
  }

  /** What an operation adds to the log is what `StepLogged` asks for. */
  lemma Logged(run: Run, ops: seq<Op>, log: seq<seq<seq<Node>>>, j: nat, s: KvStore)
    requires s.Valid() && j < |ops| && Counted(run, j + 2) && log == s.log && run.marks[j] <= run.marks[j + 1] == |log|
    requires forall k :: run.marks[j] <= k < |log| ==>
      Recoverable(log[k], run.maps[j]) || Recoverable(log[k], Applied(run.maps[j], ops[j]))
    requires s.Written(run.marks[j]) && s.model == run.maps[j + 1]
    ensures StepLogged(run, ops, log, j)
  {
    FirstFacts(s);
    hide KvStore.Valid, Recoverable, Applied;
  }

  method DoAll(s: KvStore, ops: seq<Op>, ghost n: seq<seq<Node>>) returns (results: seq<int>, ghost run: Run)
    requires s.Valid() && (forall op :: op in ops && op.SetOp? ==> KeyOk(op.key)) && BootDone(n, s.St(), s.size)
    requires forall k :: 0 <= k < |s.log| ==> Recoverable(s.log[k], s.model)
    modifies s`blocks, s`nodes, s`log, s`images, s`bid, s`gcBid, s`model
    ensures s.Valid() && RunOk(run, ops, results, s.log, n, old(s.model), s.size)
    ensures run.marks[|ops|] == |s.log| && run.states[|ops|] == s.St() && run.maps[|ops|] == s.model
  {
    hide KvStore.Valid, Recoverable, Applied, Succeeded, Done, KeyOk, BootDone;
    results, run := [], Run([s.St()], [s.model], [|s.log|]);
    assert ops[..0] == [];
    for j := 0 to |ops|
      invariant s.Valid() && |results| == j && RunOk(run, ops[..j], results, s.log, n, old(s.model), s.size)
      invariant run.marks[j] == |s.log| && run.states[j] == s.St() && run.maps[j] == s.model
    {
      ghost var log, was := s.log, run;
      var r := Do(s, ops[j]);
      run := Run(run.states + [s.St()], run.maps + [s.model], run.marks + [|s.log|]);
      Logged(run, ops, s.log, j, s);
      Longer(was, run, ops, results, r, log, s.log, n, old(s.model), s.size, s.St(), s.model);
      results := results + [r];
    }
    assert ops[..|ops|] == ops;
  }

  /** Start on flash that holds `m`, do `ops`, lose power after write or erase number `cut`, and start again from the
      bytes that are there. What operations before the one under way have done is there, and of that one all or
      nothing. */
  method CrashAnywhere(size: nat, flash: seq<seq<Byte>>, ops: seq<Op>, cut: nat, ghost n: seq<seq<Node>>,
      ghost m: map<Key, Value>)
    returns (first: KvStore, results: seq<int>, s: KvStore, ghost run: Run, ghost i: nat)
    requires size % 4 == 0 && SCAN_END <= size <= SIZE_MAX && |flash| > 0 && FlashOk(flash, n, size) &&
      Recoverable(n, m)
    requires forall op :: op in ops && op.SetOp? ==> KeyOk(op.key)
    ensures fresh(first) && first.Valid() && RunOk(run, ops, results, first.log, n, m, size)
    ensures first.Traced([], flash)
    ensures s.Traced([], if cut < |first.images| then first.images[cut] else Image(first.blocks))
    ensures run.marks[|ops|] == |first.log| && run.states[|ops|] == first.St() && run.maps[|ops|] == first.model
    ensures fresh(s) && s.Valid() && BootDone(if cut < |first.log| then first.log[cut] else first.nodes, s.St(), size)
    ensures i <= |ops| && UnderWay(run.marks, cut, i) && Survives(s.model, run, ops, cut, i)
  {
    hide KvStore.Valid, Recoverable, FlashOk, Applied, KeyOk, BootDone, RunOk, Survives;
    first := new KvStore(size);
    first.Boot(flash, n, m);
    results, run := DoAll(first, ops, n);
    Sizes(run, ops, results, first.log, n, m, size);
    FirstFacts(first);
    WholeTrace(first);
    s := new KvStore(size);
    if cut < |first.images| {
      ghost var m';
      m', i := CutAt(run, ops, results, first.log, n, m, size, cut);
      LogAt(first, cut);
      s.Boot(first.images[cut], first.log[cut], m');
    } else {
      i := |ops|;
      AtTheEnd(run, ops, results, first.log, n, m, size, cut);
      s.Boot(Image(first.blocks), first.nodes, first.model);
    }
  }

  lemma Sizes(run: Run, ops: seq<Op>, results: seq<int>, log: seq<seq<seq<Node>>>, n: seq<seq<Node>>,
      m: map<Key, Value>, size: nat)
    requires RunOk(run, ops, results, log, n, m, size)
    ensures Counted(run, |ops| + 1)
  {
  }

  lemma AtTheEnd(run: Run, ops: seq<Op>, results: seq<int>, log: seq<seq<seq<Node>>>, n: seq<seq<Node>>,
      m: map<Key, Value>, size: nat, cut: nat)
    requires RunOk(run, ops, results, log, n, m, size) && run.marks[|ops|] == |log| <= cut
    ensures UnderWay(run.marks, cut, |ops|) && Survives(run.maps[|ops|], run, ops, cut, |ops|)
  {
  }

  /** The operation that was under way, and the map that the flash means then. */
  lemma CutAt(run: Run, ops: seq<Op>, results: seq<int>, log: seq<seq<seq<Node>>>, n: seq<seq<Node>>,
      m: map<Key, Value>, size: nat, cut: nat)
    returns (m': map<Key, Value>, i: nat)
    requires RunOk(run, ops, results, log, n, m, size) && run.marks[|ops|] == |log| && cut < |log|
    ensures i <= |ops| && UnderWay(run.marks, cut, i) && Recoverable(log[cut], m') && Survives(m', run, ops, cut, i)
  {
    hide Recoverable, Applied, Done, BootDone, Succeeded;
    i := 0;
    while i < |ops| && run.marks[i + 1] <= cut
      invariant i <= |ops| && (i > 0 ==> run.marks[i] <= cut) && run.marks[0] <= run.marks[i]
    {
      assert StepOk(run, ops, results, size, i);
      i := i + 1;
    }
    m' := run.maps[i];
    if run.marks[0] <= cut {
      assert StepLogged(run, ops, log, i);
      if cut + 1 == run.marks[i + 1] {
        m' := run.maps[i + 1];
        assert StepOk(run, ops, results, size, i);
      } else if !Recoverable(log[cut], m') {
        m' := Applied(run.maps[i], ops[i]);
      }
    }
  }

  lemma FirstFacts(s: KvStore)
    requires s.Valid()
    ensures |s.images| == |s.log| && |s.blocks| > 0 && FlashOk(Image(s.blocks), s.nodes, s.size) &&
      Recoverable(s.nodes, s.model)
  {
    hide Unique, Represents;
    ImageOk(s.blocks, s.nodes, s.size);
  }

  lemma WholeTrace(s: KvStore)
    requires s.Valid()
    ensures s.Traced([], s.base)
  {
    assert s.images[0..] == s.images;
  }

  lemma LogAt(s: KvStore, k: nat)
    requires s.Valid() && k < |s.log|
    ensures k < |s.images| && |s.images[k]| > 0 && FlashOk(s.images[k], s.log[k], s.size)
  {
  }
}
