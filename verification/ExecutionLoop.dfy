/** The stages of a schedule as objects, and the loops that execute them (exec_matrix.cpp, system.cpp). */
module ExecutionLoop {
  import BlockGraph
  import Sequences
  import opened ExecMatrix
  import opened BlockSemantics
  import Schedule
  import opened ExecStage
  import SystemRun

  ghost predicate IsStage<V>(obj: ExecutionStage<V>, memory: Memory<V>, stage: Stage, allowed: bool, n: nat)
    reads obj
  {
    && obj.memory == memory && obj.threadingAllowed == allowed && obj.paths == stage
    && obj.Valid() && obj.Staffed() && obj.executionCount == n
  }

  /** The stages of the execution matrix as objects; the first i of them have been executed once more. */
  ghost predicate Assembled<V>(objs: seq<ExecutionStage<V>>, memory: Memory<V>, stages: seq<Stage>, allowed: bool, n: nat, i: nat)
    reads objs
  {
    && |objs| == |stages| && BlockGraph.Distinct(objs)
    && forall j :: 0 <= j < |objs| ==> IsStage(objs[j], memory, stages[j], allowed, if j < i then n + 1 else n)
  }

  /** The stage objects that add_path and setup_threading leave for a schedule. */
  method Assemble<V>(memory: Memory<V>, stages: seq<Stage>, allowed: bool) returns (objs: seq<ExecutionStage<V>>)
    requires Schedule.StagesRunnable(memory.graph, stages)
    ensures Assembled(objs, memory, stages, allowed, 0, 0) && forall i :: 0 <= i < |objs| ==> fresh(objs[i])
  {
    objs := [];
    for s := 0 to |stages|
      invariant |objs| == s && Assembled(objs, memory, stages[..s], allowed, 0, 0)
      invariant forall i :: 0 <= i < |objs| ==> fresh(objs[i])
    {
      var stage := AssembleStage(memory, stages[s], allowed);
      objs := objs + [stage];
    }
    assert stages[..|stages|] == stages;
  }

  method AssembleStage<V>(memory: Memory<V>, paths: Stage, allowed: bool) returns (stage: ExecutionStage<V>)
    requires PathsIndependent(memory.graph, paths) && BlockGraph.Distinct(Sequences.Concat(paths))
    ensures fresh(stage) && IsStage(stage, memory, paths, allowed, 0)
  {
    stage := new ExecutionStage(memory, allowed);
    for p := 0 to |paths|
      invariant fresh(stage) && stage.memory == memory && stage.threadingAllowed == allowed && stage.paths == paths[..p]
      invariant stage.Valid() && stage.executionCount == 0 && stage.workers == 0
    {
      assert paths[..p + 1] == paths[..p] + [paths[p]];
      DistinctPrefix(paths, p + 1);
      stage.AddPath(paths[p]);
    }
    assert paths[..|paths|] == paths;
    stage.SetupThreading();
  }

  lemma DistinctPrefix<T>(parts: seq<seq<T>>, p: nat)
    requires BlockGraph.Distinct(Sequences.Concat(parts)) && p <= |parts|
    ensures BlockGraph.Distinct(Sequences.Concat(parts[..p]))
  {
    assert parts == parts[..p] + parts[p..];
    Sequences.ConcatAppend(parts[..p], parts[p..]);
    DistinctConcat(Sequences.Concat(parts[..p]), Sequences.Concat(parts[p..]));
  }

  /** ExecutionMatrix::exec; elapsed holds the times that measurements take. */
  method ExecStages<V>(objs: seq<ExecutionStage<V>>, memory: Memory<V>, elapsed: seq<int>, ghost stages: seq<Stage>, ghost allowed: bool,
                       ghost n: nat)
    requires Assembled(objs, memory, stages, allowed, n, 0) && Fits(memory.graph, memory.store) && |elapsed| == |objs|
    modifies memory, objs
    ensures Assembled(objs, memory, stages, allowed, n + 1, 0) && Fits(memory.graph, memory.store)
    ensures memory.store == Schedule.Turned(memory.machine, stages, SystemRun.TurnsAt(stages, allowed, n), old(memory.store))
  {
    ghost var m, turns, before := memory.machine, SystemRun.TurnsAt(stages, allowed, n), memory.store;
    for i := 0 to |objs|
      invariant Assembled(objs, memory, stages, allowed, n, i) && Fits(memory.graph, memory.store)
      invariant memory.store == Schedule.Turned(m, stages[..i], turns[..i], before)
    {
      ExecOne(objs, memory, elapsed[i], stages, allowed, n, i);
      TurnedMore(m, stages, turns, before, i);
    }
    assert stages[..|stages|] == stages && turns[..|turns|] == turns;
  }

  lemma TurnedMore<V>(m: Machine<V>, stages: seq<Stage>, turns: seq<nat>, s: Store<V>, i: nat)
    requires |turns| == |stages| && i < |stages|
    ensures Schedule.Turned(m, stages[..i + 1], turns[..i + 1], s) == Schedule.Rounds(m, Sequences.Concat(stages[i]), turns[i], Schedule.Turned(m, stages[..i], turns[..i], s))
  {
    assert stages[..i + 1][..i] == stages[..i] && turns[..i + 1][..i] == turns[..i];
  }

  method ExecOne<V>(objs: seq<ExecutionStage<V>>, memory: Memory<V>, elapsed: int, ghost stages: seq<Stage>, ghost allowed: bool,
                    ghost n: nat, i: nat)
    requires Assembled(objs, memory, stages, allowed, n, i) && i < |objs| && Fits(memory.graph, memory.store)
    modifies memory, objs[i]
    ensures Assembled(objs, memory, stages, allowed, n, i + 1) && Fits(memory.graph, memory.store)
    ensures memory.store == Schedule.Rounds(memory.machine, Sequences.Concat(stages[i]), Turns(Threaded(allowed, stages[i]), n), old(memory.store))
  {
    assert IsStage(objs[i], memory, stages[i], allowed, n);
    objs[i].Exec(elapsed);
    assert IsStage(objs[i], memory, stages[i], allowed, n + 1);
    forall j | 0 <= j < |objs| ensures IsStage(objs[j], memory, stages[j], allowed, if j < i + 1 then n + 1 else n) {
      if j != i {
        assert old(IsStage(objs[j], memory, stages[j], allowed, if j < i then n + 1 else n)) && objs[j] != objs[i];
      }
    }
  }

  /** The stores before and after each of some executions, from number n on. */
  ghost predicate Trace<V>(m: Machine<V>, stages: seq<Stage>, allowed: bool, n: nat, trace: seq<Store<V>>) {
    trace != [] && forall t :: 0 <= t < |trace| - 1 ==> Follows(m, stages, allowed, n + t, trace[t], trace[t + 1])
  }

  ghost predicate Follows<V>(m: Machine<V>, stages: seq<Stage>, allowed: bool, k: nat, s: Store<V>, r: Store<V>) {
    r == Schedule.Turned(m, stages, SystemRun.TurnsAt(stages, allowed, k), s)
  }

  lemma TraceMore<V>(m: Machine<V>, stages: seq<Stage>, allowed: bool, n: nat, trace: seq<Store<V>>, s: Store<V>)
    requires Trace(m, stages, allowed, n, trace) && Follows(m, stages, allowed, n + |trace| - 1, trace[|trace| - 1], s)
    ensures Trace(m, stages, allowed, n, trace + [s])
  {
    var more := trace + [s];
    forall t | 0 <= t < |more| - 1 ensures Follows(m, stages, allowed, n + t, more[t], more[t + 1]) {
      if t < |trace| - 1 {
        assert Follows(m, stages, allowed, n + t, trace[t], trace[t + 1]);
      }
    }
  }

  lemma {:induction false} TraceExecuted<V>(m: Machine<V>, stages: seq<Stage>, allowed: bool, n: nat, trace: seq<Store<V>>, start: Store<V>)
    requires Trace(m, stages, allowed, n, trace) && trace[0] == SystemRun.Executed(m, stages, allowed, n, start)
    ensures trace[|trace| - 1] == SystemRun.Executed(m, stages, allowed, n + |trace| - 1, start)
  {
    var t := |trace| - 1;
    if t > 0 {
      TraceExecuted(m, stages, allowed, n, trace[..t], start);
      assert Follows(m, stages, allowed, n + (t - 1), trace[t - 1], trace[t]);
    }
  }

  /** The loop of wakeup_sys. */
  method ExecLoop<V>(objs: seq<ExecutionStage<V>>, memory: Memory<V>, times: nat, ghost stages: seq<Stage>, ghost allowed: bool, ghost n: nat)
    returns (ghost trace: seq<Store<V>>)
    requires Assembled(objs, memory, stages, allowed, n, 0) && Fits(memory.graph, memory.store)
    modifies memory, objs
    ensures Assembled(objs, memory, stages, allowed, n + times, 0) && Fits(memory.graph, memory.store)
    ensures Trace(memory.machine, stages, allowed, n, trace) && |trace| == times + 1
    ensures trace[0] == old(memory.store) && trace[times] == memory.store
  {
    trace := [memory.store];
    ghost var k := n;
    for t := 0 to times
      invariant k == n + t && Assembled(objs, memory, stages, allowed, k, 0) && Fits(memory.graph, memory.store)
      invariant |trace| == t + 1 && trace[0] == old(memory.store) && trace[t] == memory.store
      invariant Trace(memory.machine, stages, allowed, n, trace)
    {
      trace := ExecOnce(objs, memory, stages, allowed, n, k, trace);
      k := k + 1;
    }
  }

  method ExecOnce<V>(objs: seq<ExecutionStage<V>>, memory: Memory<V>, ghost stages: seq<Stage>, ghost allowed: bool, ghost n: nat,
                     ghost k: nat, ghost trace: seq<Store<V>>) returns (ghost more: seq<Store<V>>)
    requires Assembled(objs, memory, stages, allowed, k, 0) && Fits(memory.graph, memory.store)
    requires Trace(memory.machine, stages, allowed, n, trace) && trace[|trace| - 1] == memory.store && k == n + |trace| - 1
    modifies memory, objs
    ensures Assembled(objs, memory, stages, allowed, k + 1, 0) && Fits(memory.graph, memory.store)
    ensures Trace(memory.machine, stages, allowed, n, more) && more == trace + [memory.store]
  {
    var elapsed := Clock(|objs|);
    ExecStages(objs, memory, elapsed, stages, allowed, k);
    TraceMore(memory.machine, stages, allowed, n, trace, memory.store);
    more := trace + [memory.store];
  }

  /** wakeup_sys, once more or for the first time. */
  method WakeupSys<V>(objs: seq<ExecutionStage<V>>, memory: Memory<V>, times: nat, ghost stages: seq<Stage>, ghost allowed: bool,
                      ghost n: nat, ghost start: Store<V>)
    requires Assembled(objs, memory, stages, allowed, n, 0) && Fits(memory.graph, memory.store)
    requires memory.store == SystemRun.Executed(memory.machine, stages, allowed, n, start)
    modifies memory, objs
    ensures Assembled(objs, memory, stages, allowed, n + times, 0) && Fits(memory.graph, memory.store)
    ensures memory.store == SystemRun.Executed(memory.machine, stages, allowed, n + times, start)
  {
    ghost var trace := ExecLoop(objs, memory, times, stages, allowed, n);
    TraceExecuted(memory.machine, stages, allowed, n, trace, start);
  }

  /** Any times may be measured. */
  method Clock(n: nat) returns (elapsed: seq<int>)
    ensures |elapsed| == n
  {
    elapsed := [];
    for i := 0 to n
      invariant |elapsed| == i
    {
      var t: int := *;
      elapsed := elapsed + [t];
    }
  }
}
