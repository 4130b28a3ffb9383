/** ExecutionStage: executing one stage, with the measurements that decide whether threads are worth it (exec_stage.cpp). */
module ExecStage {
  import opened BlockGraph
  import opened Sequences
  import ExecMatrix
  import opened BlockSemantics
  import opened Schedule

  const TEST_RUNS: bv32 := 30

  /** The number of the execution that ends the calibration. */
  const LAST_TEST: nat := (TEST_RUNS | 1) as nat

  lemma LastTestIs31()
    ensures LAST_TEST == 31
  {
    assert TEST_RUNS | 1 == 31;
  }

  /** A stage uses threads if the environment allows them and there is more than one path. */
  predicate Threaded(allowed: bool, stage: ExecMatrix.Stage) { allowed && |stage| > 1 }

  /** How often the execution with number k runs each path: once, and once more for a measurement. */
  function Turns(threaded: bool, k: nat): nat { if threaded && k < 32 then 2 else 1 }

  function Min(a: nat, b: nat): nat { if a < b then a else b }

  /** How often each path has run after n executions. */
  function Passes(threaded: bool, n: nat): nat {
    if n == 0 then 0 else Passes(threaded, n - 1) + Turns(threaded, n - 1)
  }

  lemma {:induction false} PassesInAll(threaded: bool, n: nat)
    ensures Passes(threaded, n) == n + if threaded then Min(n, 32) else 0
  {
    if n > 0 {
      PassesInAll(threaded, n - 1);
    }
  }

  /** Who runs the paths of a stage: the caller, one after the other, or one worker for each. */
  datatype RunKind = InTurn | ByWorkers

  function KindOf(multi: bool): RunKind { if multi then ByWorkers else InTurn }

  /** A run that was measured, and the time that it took. */
  datatype Measurement = Measurement(kind: RunKind, elapsed: int)

  predicate IsOdd(k: nat) { k % 2 == 1 }

  /** Measurement k was taken of a run by workers exactly if k is odd. */
  ghost predicate Alternating(measured: seq<Measurement>) {
    forall k :: 0 <= k < |measured| ==> (measured[k].kind == ByWorkers <==> IsOdd(k))
  }

  /** The times of all measured runs of one kind. */
  function Times(measured: seq<Measurement>, kind: RunKind): seq<int> {
    if measured == [] then [] else
      var k := |measured| - 1;
      Times(measured[..k], kind) + if measured[k].kind == kind then [measured[k].elapsed] else []
  }

  function Sum(times: seq<int>): int {
    if times == [] then 0 else Sum(times[..|times| - 1]) + times[|times| - 1]
  }

  lemma {:induction false} HalfEach(measured: seq<Measurement>)
    requires Alternating(measured)
    ensures |Times(measured, InTurn)| == (|measured| + 1) / 2 && |Times(measured, ByWorkers)| == |measured| / 2
  {
    if measured != [] {
      HalfEach(measured[..|measured| - 1]);
    }
  }

  /** The time that all measured runs of one kind took together. */
  function Total(measured: seq<Measurement>, kind: RunKind): int {
    if measured == [] then 0 else
      var k := |measured| - 1;
      Total(measured[..k], kind) + if measured[k].kind == kind then measured[k].elapsed else 0
  }

  lemma {:induction false} TotalIsSum(measured: seq<Measurement>, kind: RunKind)
    ensures Total(measured, kind) == Sum(Times(measured, kind))
  {
    if measured != [] {
      var k := |measured| - 1;
      TotalIsSum(measured[..k], kind);
      var part := Times(measured[..k], kind);
      assert (part + [measured[k].elapsed])[..|part|] == part;
      assert part + [] == part;
    }
  }

  lemma OneMoreTime(measured: seq<Measurement>, one: Measurement, kind: RunKind)
    ensures Total(measured + [one], kind) == Total(measured, kind) + if one.kind == kind then one.elapsed else 0
    ensures IsOdd(|measured| + 1) == !IsOdd(|measured|)
  {
    assert (measured + [one])[..|measured|] == measured;
  }

  /** The states of all blocks and the signal buffers. Every stage works on them. */
  class Memory<V> {
    ghost const graph: Graph
    ghost const machine: Machine<V>
    ghost var store: Store<V>

    constructor (ghost g: Graph, ghost m: Machine<V>, ghost s: Store<V>)
      ensures graph == g && machine == m && store == s
    {
      graph, machine, store := g, m, s;
    }
  }

  class ExecutionStage<V> {
    const memory: Memory<V>
    const threadingAllowed: bool
    var paths: ExecMatrix.Stage
    var threadingEnabled: bool
    var calibrating: bool
    var testMulti: bool
    var timeSingleThreaded: int
    var timeMultiThreaded: int
    var executionCount: nat
    var workers: nat

    /** All runs of the paths, and those that were measured. */
    ghost var runs: seq<RunKind>
    ghost var measured: seq<Measurement>

    ghost predicate IsThreaded()
      reads `paths
    {
      Threaded(threadingAllowed, paths)
    }

    /** Runs in turn and runs by workers are measured alternately, and each sum is of the runs of its kind. */
    ghost predicate Timed()
      reads `measured, `testMulti, `timeSingleThreaded, `timeMultiThreaded
    {
      && Alternating(measured) && testMulti == IsOdd(|measured|)
      && timeSingleThreaded == Total(measured, InTurn) && timeMultiThreaded == Total(measured, ByWorkers)
    }

    /** The measurements and the decision that n executions have led to. */
    ghost predicate Booked(n: nat)
      reads this
    {
      && Timed() && |measured| == (if IsThreaded() then Min(n, 32) else 0)
      && calibrating == !(IsThreaded() && n >= 32)
      && threadingEnabled == (IsThreaded() && (n < 32 || timeMultiThreaded < timeSingleThreaded))
    }

    /** The whole history of the stage, told by the number of executions alone. */
    ghost predicate Valid()
      reads this
    {
      && ExecMatrix.PathsIndependent(memory.graph, paths) && Distinct(Concat(paths))
      && |runs| == Passes(IsThreaded(), executionCount) && Booked(executionCount)
      && workers == (if IsThreaded() && workers > 0 then |paths| else 0)
    }

    /** Every path has its worker, if threads are to be used. */
    ghost predicate Staffed()
      reads this
    {
      threadingEnabled ==> workers == |paths|
    }

    constructor (m: Memory<V>, allowed: bool)
      ensures Valid() && Staffed() && memory == m && threadingAllowed == allowed && paths == [] && executionCount == 0 && workers == 0
    {
      memory, threadingAllowed := m, allowed;
      paths, threadingEnabled, calibrating, testMulti := [], false, true, false;
      timeSingleThreaded, timeMultiThreaded, executionCount, workers := 0, 0, 0, 0;
      runs, measured := [], [];
    }

    /** A second path turns threading on, if the environment allows threads. */
    method AddPath(p: ExecMatrix.Path)
      requires Valid() && executionCount == 0 && workers == 0
      requires ExecMatrix.PathsIndependent(memory.graph, paths + [p]) && Distinct(Concat(paths + [p]))
      modifies this`paths, this`threadingEnabled
      ensures Valid() && paths == old(paths) + [p]
      ensures threadingEnabled == (threadingAllowed && |paths| >= 2)
    {
      paths := paths + [p];
      if |paths| > 1 && threadingAllowed {
        threadingEnabled := true;
      }
    }

    /** One worker for each path. */
    method SetupThreading()
      requires Valid() && executionCount == 0
      modifies this`workers
      ensures Valid() && Staffed() && workers == if IsThreaded() then |paths| else old(workers)
    {
      if !threadingEnabled {
        return;
      }
      workers := |paths|;
    }

    /** All paths in turn. */
    method ExecPaths()
      modifies memory, this`runs
      ensures memory.store == Run(memory.machine, ProcessAll(memory.machine, Concat(paths)), old(memory.store))
      ensures runs == old(runs) + [InTurn]
    {
      runs := runs + [InTurn];
      ghost var all := runs;
      ghost var m, now := memory.machine, paths;
      assert Concat(now[..0]) == [];
      for p := 0 to |paths|
        invariant paths == now && runs == all && memory.store == Run(m, ProcessAll(m, Concat(now[..p])), old(memory.store))
      {
        ghost var before := Concat(now[..p]);
        ExecPath(paths[p]);
        LastPart(now[..p + 1]);
        assert now[..p + 1][..p] == now[..p];
        ProcessAllAppend(m, before, now[p]);
        RunAppend(m, ProcessAll(m, before), ProcessAll(m, now[p]), old(memory.store));
      }
      assert now[..|now|] == now;
    }

    method ExecPath(p: ExecMatrix.Path)
      modifies memory
      ensures memory.store == Run(memory.machine, ProcessAll(memory.machine, p), old(memory.store))
    {
      memory.store := Run(memory.machine, ProcessAll(memory.machine, p), memory.store);
    }

    /** continue_all and sync_post_process: the workers run the paths, interleaved in any way. */
    method ExecThreads()
      requires Fits(memory.graph, memory.store) && ExecMatrix.PathsIndependent(memory.graph, paths) && Distinct(Concat(paths))
      requires workers == |paths|
      modifies memory, this`runs
      ensures memory.store == Run(memory.machine, ProcessAll(memory.machine, Concat(paths)), old(memory.store))
      ensures runs == old(runs) + [ByWorkers]
    {
      runs := runs + [ByWorkers];
      StageRunExists(memory.machine, paths);
      ghost var t :| StageRun(memory.machine, paths, t);
      StageRunIsSequential(memory.graph, memory.machine, paths, t, memory.store);
      memory.store := Run(memory.machine, t, memory.store);
    }

    /** One run of every path, with the workers or without. */
    method Pass(multi: bool)
      requires Fits(memory.graph, memory.store) && ExecMatrix.PathsIndependent(memory.graph, paths) && Distinct(Concat(paths))
      requires multi ==> workers == |paths|
      modifies memory, this`runs
      ensures memory.store == Rounds(memory.machine, Concat(paths), 1, old(memory.store)) && runs == old(runs) + [KindOf(multi)]
    {
      assert Rounds(memory.machine, Concat(paths), 0, memory.store) == memory.store;
      if multi {
        ExecThreads();
      } else {
        ExecPaths();
      }
    }

    /** The measurement that precedes an execution while the stage is calibrated, with the time that it takes. */
    method Measure(elapsed: int)
      requires Fits(memory.graph, memory.store) && ExecMatrix.PathsIndependent(memory.graph, paths) && Distinct(Concat(paths))
      requires Timed() && workers == |paths|
      modifies memory, this`runs, this`testMulti, this`timeMultiThreaded, this`timeSingleThreaded, this`measured
      ensures Timed() && runs == old(runs) + [KindOf(old(testMulti))]
      ensures measured == old(measured) + [Measurement(KindOf(old(testMulti)), elapsed)]
      ensures memory.store == Rounds(memory.machine, Concat(paths), 1, old(memory.store))
    {
      Pass(testMulti);
      Record(elapsed, Measurement(runs[|runs| - 1], elapsed));
    }

    /** The time of the run goes to the sum that testMulti selects. */
    method Record(elapsed: int, ghost one: Measurement)
      requires Timed() && one == Measurement(KindOf(testMulti), elapsed)
      modifies this`testMulti, this`timeMultiThreaded, this`timeSingleThreaded, this`measured
      ensures Timed() && measured == old(measured) + [one]
    {
      OneMoreTime(measured, one, InTurn);
      OneMoreTime(measured, one, ByWorkers);
      if testMulti {
        timeMultiThreaded := timeMultiThreaded + elapsed;
      } else {
        timeSingleThreaded := timeSingleThreaded + elapsed;
      }
      testMulti := !testMulti;
      measured := measured + [one];
    }

    /** The end of the calibration: the decision on the times that were measured. */
    method Decide()
      modifies this`calibrating, this`threadingEnabled
      ensures executionCount == 31 ==> !calibrating && threadingEnabled == (timeMultiThreaded < timeSingleThreaded)
      ensures executionCount != 31 ==> calibrating == old(calibrating) && threadingEnabled == old(threadingEnabled)
    {
      LastTestIs31();
      if executionCount == LAST_TEST {
        calibrating := false;
        threadingEnabled := timeMultiThreaded < timeSingleThreaded;
      }
    }

    /** The first half of an execution. */
    method Calibrate(elapsed: int)
      requires Valid() && Staffed() && Fits(memory.graph, memory.store)
      modifies memory, this`runs, this`testMulti, this`timeMultiThreaded, this`timeSingleThreaded, this`measured
      modifies this`calibrating, this`threadingEnabled
      ensures Booked(executionCount + 1) && Staffed()
      ensures |runs| == |old(runs)| + Turns(IsThreaded(), executionCount) - 1
      ensures runs == old(runs) + if old(calibrating && threadingEnabled) then [KindOf(old(testMulti))] else []
      ensures measured == old(measured) + if old(calibrating && threadingEnabled) then [Measurement(KindOf(old(testMulti)), elapsed)] else []
      ensures memory.store == Rounds(memory.machine, Concat(paths), Turns(IsThreaded(), executionCount) - 1, old(memory.store))
    {
      assert (calibrating && threadingEnabled) == (IsThreaded() && executionCount < 32);
      assert Rounds(memory.machine, Concat(paths), 0, memory.store) == memory.store;
      if calibrating && threadingEnabled {
        ghost var n := Min(executionCount, 32);
        assert n == executionCount && Min(executionCount + 1, 32) == n + 1;
        Measure(elapsed);
        Decide();
      }
    }

    /** One execution, with the time that a measurement takes. Other stages may have run since the last one. */
    method Exec(elapsed: int)
      requires Valid() && Staffed() && Fits(memory.graph, memory.store)
      modifies memory, this`runs, this`testMulti, this`timeMultiThreaded, this`timeSingleThreaded, this`measured
      modifies this`calibrating, this`threadingEnabled, this`executionCount
      ensures Valid() && Staffed() && executionCount == old(executionCount) + 1
      ensures runs == old(runs) + (if old(calibrating && threadingEnabled) then [KindOf(old(testMulti))] else []) + [KindOf(threadingEnabled)]
      ensures measured == old(measured) + if old(calibrating && threadingEnabled) then [Measurement(KindOf(old(testMulti)), elapsed)] else []
      ensures memory.store == Rounds(memory.machine, Concat(paths), Turns(IsThreaded(), old(executionCount)), old(memory.store))
    {
      ghost var m, order, before := memory.machine, Concat(paths), memory.store;
      Calibrate(elapsed);
      RoundsAdd(m, order, Turns(IsThreaded(), executionCount) - 1, before);
      Pass(threadingEnabled);
      executionCount := executionCount + 1;
    }

    /** The destructor: whether the workers are told to leave. */
    method Destroy() returns (shutdown: bool)
      requires Valid()
      modifies this`workers
      ensures shutdown == threadingEnabled
      ensures workers == if shutdown then 0 else old(workers)
      ensures workers > 0 <==> old(workers) > 0 && executionCount >= 32 && timeMultiThreaded >= timeSingleThreaded
    {
      shutdown := threadingEnabled;
      if threadingEnabled {
        workers := 0;
      }
    }

    /** The decision compares the sums of 16 runs in turn and of 16 runs by workers, and is never taken again. */
    lemma SixteenOfEach()
      requires Valid() && IsThreaded() && executionCount >= 32
      ensures |measured| == 32 && forall k :: 0 <= k < 32 ==> (measured[k].kind == ByWorkers <==> k % 2 == 1)
      ensures |Times(measured, InTurn)| == |Times(measured, ByWorkers)| == 16 && !calibrating
      ensures threadingEnabled <==> Sum(Times(measured, ByWorkers)) < Sum(Times(measured, InTurn))
    {
      HalfEach(measured);
      TotalIsSum(measured, InTurn);
      TotalIsSum(measured, ByWorkers);
      assert forall k :: 0 <= k < 32 ==> IsOdd(k) == (k % 2 == 1);
    }

    /** Executions and runs are as many only if the stage is not threaded. */
    lemma OncePerExecution()
      requires Valid()
      ensures |runs| == executionCount + if threadingAllowed && |paths| >= 2 then Min(executionCount, 32) else 0
      ensures |runs| == executionCount <==> !threadingAllowed || |paths| < 2 || executionCount == 0
    {
      PassesInAll(IsThreaded(), executionCount);
    }
  }

  /** One round more is one round after the others. */
  lemma RoundsAdd<V>(m: Machine<V>, order: seq<Name>, n: nat, s: Store<V>)
    ensures Rounds(m, order, 1, Rounds(m, order, n, s)) == Rounds(m, order, n + 1, s)
  {
    var s1 := Rounds(m, order, n, s);
    assert Rounds(m, order, 1, s1) == Run(m, ProcessAll(m, order), Rounds(m, order, 0, s1));
  }
}
