/** System::wakeup_sys: what any number of executions of the whole schedule computes. */
module SystemRun {
  import opened BlockGraph
  import opened Sequences
  import opened ExecMatrix
  import SystemInit
  import opened BlockSemantics
  import opened Schedule
  import ExecStage

  /** How often the execution with number k runs each stage. */
  function TurnsAt(stages: seq<Stage>, allowed: bool, k: nat): (turns: seq<nat>)
    ensures |turns| == |stages|
  {
    seq(|stages|, i requires 0 <= i < |stages| => ExecStage.Turns(ExecStage.Threaded(allowed, stages[i]), k))
  }

  /** The store after n executions, each of which runs its stages one path after the other. */
  function Executed<V>(m: Machine<V>, stages: seq<Stage>, allowed: bool, n: nat, s: Store<V>): (r: Store<V>)
    ensures r.Keys == s.Keys
  {
    if n == 0 then s else Turned(m, stages, TurnsAt(stages, allowed, n - 1), Executed(m, stages, allowed, n - 1, s))
  }

  /** The runs of all stages in the executions 0, 1, ..., each run interleaved in its own way. */
  ghost predicate Wakeup<V>(m: Machine<V>, stages: seq<Stage>, allowed: bool, passes: seq<seq<seq<seq<Action>>>>) {
    forall k :: 0 <= k < |passes| ==> PassRun(m, stages, TurnsAt(stages, allowed, k), passes[k])
  }

  /** Whatever has been run, the next execution may be scheduled in any way. */
  lemma WakeupGoesOn<V>(m: Machine<V>, stages: seq<Stage>, allowed: bool, passes: seq<seq<seq<seq<Action>>>>, pass: seq<seq<seq<Action>>>)
    requires Wakeup(m, stages, allowed, passes) && PassRun(m, stages, TurnsAt(stages, allowed, |passes|), pass)
    ensures Wakeup(m, stages, allowed, passes + [pass])
  {
  }

  /** Whatever the scheduling of the threads, the executions leave the store of the sequential runs. */
  lemma {:induction false} ParallelRefinesSequential<V>(g: Graph, m: Machine<V>, stages: seq<Stage>, allowed: bool,
                                                        passes: seq<seq<seq<seq<Action>>>>, s: Store<V>)
    requires Fits(g, s) && StagesRunnable(g, stages) && Wakeup(m, stages, allowed, passes)
    ensures Run(m, Concat(Concat(Concat(passes))), s) == Executed(m, stages, allowed, |passes|, s)
  {
    if passes != [] {
      var k := |passes| - 1;
      ParallelRefinesSequential(g, m, stages, allowed, passes[..k], s);
      LastPass(passes);
      ConcatAppend(Concat(Concat(passes[..k])), Concat(passes[k]));
      RunAppend(m, Concat(Concat(Concat(passes[..k]))), Concat(Concat(passes[k])), s);
      PassIsSequential(g, m, stages, TurnsAt(stages, allowed, k), passes[k], Executed(m, stages, allowed, k, s));
    }
  }

  // ---- when executions are rounds ----

  ghost predicate NoneThreaded(stages: seq<Stage>, allowed: bool) {
    forall i :: 0 <= i < |stages| ==> !ExecStage.Threaded(allowed, stages[i])
  }

  /** A dependency order of the blocks of a safe schedule. */
  ghost predicate OrderOf(g: Graph, stages: seq<Stage>, order: seq<Name>) {
    && ScheduleSafe(g, stages) && Distinct(Order(stages))
    && Topological(g, order) && Distinct(order) && forall b :: b in order <==> b in Order(stages)
  }

  /** An execution after the calibration, or without threads, is one pass over the blocks in any dependency order. */
  lemma SettledExecution<V>(g: Graph, m: Machine<V>, stages: seq<Stage>, allowed: bool, order: seq<Name>, k: nat, s: Store<V>)
    requires OrderOf(g, stages, order) && Fits(g, s) && (k >= 32 || NoneThreaded(stages, allowed))
    ensures Turned(m, stages, TurnsAt(stages, allowed, k), s) == Run(m, ProcessAll(m, order), s)
  {
    OneTurnEach(m, stages, TurnsAt(stages, allowed, k), s);
    SafeScheduleTopological(g, stages);
    TopologicalOrdersAgree(g, m, Order(stages), order, s);
  }

  /** The executions from number n on are rounds, from whatever store the calibration has left. */
  lemma {:induction false} SettledExecutions<V>(g: Graph, m: Machine<V>, stages: seq<Stage>, allowed: bool, order: seq<Name>,
                                                n: nat, more: nat, s: Store<V>)
    requires OrderOf(g, stages, order) && Fits(g, s) && (n >= 32 || NoneThreaded(stages, allowed))
    ensures Executed(m, stages, allowed, n + more, s) == Rounds(m, order, more, Executed(m, stages, allowed, n, s))
  {
    if more > 0 {
      var k := n + more - 1;
      SettledExecutions(g, m, stages, allowed, order, n, more - 1, s);
      OneMoreSettled(g, m, stages, allowed, order, k, more - 1, s, Executed(m, stages, allowed, n, s));
    }
  }

  lemma OneMoreSettled<V>(g: Graph, m: Machine<V>, stages: seq<Stage>, allowed: bool, order: seq<Name>, k: nat, j: nat, s: Store<V>, r: Store<V>)
    requires OrderOf(g, stages, order) && Fits(g, s) && (k >= 32 || NoneThreaded(stages, allowed))
    requires Executed(m, stages, allowed, k, s) == Rounds(m, order, j, r)
    ensures Executed(m, stages, allowed, k + 1, s) == Rounds(m, order, j + 1, r)
  {
    SettledExecution(g, m, stages, allowed, order, k, Executed(m, stages, allowed, k, s));
  }

  // ---- blocks that count their calls ----

  /** Every block counts the calls of its process(). */
  function Counting(): Machine<int> {
    Machine((b: Name) => 1, (a: Action, s: Store<int>) => map l | l in s :: s[l] + 1)
  }

  function Calls(b: Name, s: Store<int>): int
    requires Own(b) in s
  {
    s[Own(b)]
  }

  lemma {:induction false} PassCounts(order: seq<Name>, b: Name, s: Store<int>)
    requires Distinct(order) && Own(b) in s
    ensures Calls(b, Run(Counting(), ProcessAll(Counting(), order), s)) == Calls(b, s) + if b in order then 1 else 0
  {
    if order != [] {
      var k := |order| - 1;
      PassCounts(order[..k], b, s);
      assert order == order[..k] + [order[k]];
      ProcessAllAppend(Counting(), order[..k], [order[k]]);
      RunAppend(Counting(), ProcessAll(Counting(), order[..k]), ProcessAll(Counting(), [order[k]]), s);
      OneCall(order[k], b, Run(Counting(), ProcessAll(Counting(), order[..k]), s));
    }
  }

  lemma OneCall(c: Name, b: Name, s: Store<int>)
    requires Own(b) in s
    ensures Calls(b, Run(Counting(), ProcessAll(Counting(), [c]), s)) == Calls(b, s) + if b == c then 1 else 0
  {
    assert ProcessAll(Counting(), [c]) == [Action(c, 0)];
    RunOne(Counting(), Action(c, 0), s);
  }

  lemma {:induction false} RoundsCount(order: seq<Name>, n: nat, b: Name, s: Store<int>)
    requires Distinct(order) && Own(b) in s
    ensures Calls(b, Rounds(Counting(), order, n, s)) == Calls(b, s) + if b in order then n else 0
  {
    if n > 0 {
      RoundsCount(order, n - 1, b, s);
      PassCounts(order, b, Rounds(Counting(), order, n - 1, s));
    }
  }

  lemma InOrder(stages: seq<Stage>, j: nat, b: Name)
    requires j < |stages| && b in Concat(stages[j])
    ensures b in Order(stages)
  {
    OrderSplit(stages, j);
  }

  lemma {:induction false} TurnedCounts(stages: seq<Stage>, turns: seq<nat>, j: nat, b: Name, s: Store<int>)
    requires |turns| == |stages| && Distinct(Order(stages)) && Own(b) in s
    ensures b !in Order(stages) ==> Calls(b, Turned(Counting(), stages, turns, s)) == Calls(b, s)
    ensures j < |stages| && b in Concat(stages[j]) ==> Calls(b, Turned(Counting(), stages, turns, s)) == Calls(b, s) + turns[j]
  {
    if stages != [] {
      var k := |stages| - 1;
      LastPass(stages);
      DistinctConcat(Order(stages[..k]), Concat(stages[k]));
      TurnedCounts(stages[..k], turns[..k], j, b, s);
      RoundsCount(Concat(stages[k]), turns[k], b, Turned(Counting(), stages[..k], turns[..k], s));
      if j < k && b in Concat(stages[j]) {
        InOrder(stages[..k], j, b);
      }
    }
  }

  lemma {:induction false} ExecutedCounts(stages: seq<Stage>, allowed: bool, n: nat, j: nat, b: Name, s: Store<int>)
    requires Distinct(Order(stages)) && Own(b) in s && j < |stages| && b in Concat(stages[j])
    ensures Calls(b, Executed(Counting(), stages, allowed, n, s)) == Calls(b, s) + ExecStage.Passes(ExecStage.Threaded(allowed, stages[j]), n)
  {
    if n > 0 {
      ExecutedCounts(stages, allowed, n - 1, j, b, s);
      TurnedCounts(stages, TurnsAt(stages, allowed, n - 1), j, b, Executed(Counting(), stages, allowed, n - 1, s));
    }
  }

  /** Exactly how often n executions call the process() of a block. */
  lemma CallsInAll(stages: seq<Stage>, allowed: bool, n: nat, j: nat, b: Name, s: Store<int>)
    requires Distinct(Order(stages)) && Own(b) in s && j < |stages| && b in Concat(stages[j])
    ensures Calls(b, Executed(Counting(), stages, allowed, n, s))
         == Calls(b, s) + n + if ExecStage.Threaded(allowed, stages[j]) then ExecStage.Min(n, 32) else 0
  {
    ExecutedCounts(stages, allowed, n, j, b, s);
    ExecStage.PassesInAll(ExecStage.Threaded(allowed, stages[j]), n);
  }

  /** With a threaded stage, blocks that count their calls tell n executions from n rounds. */
  lemma ThreadedDiffers(g: Graph, stages: seq<Stage>, allowed: bool, order: seq<Name>, n: nat) returns (s: Store<int>)
    requires OrderOf(g, stages, order) && n >= 1 && !NoneThreaded(stages, allowed)
    requires forall i :: 0 <= i < |stages| ==> NonEmptyPaths(stages[i])
    ensures Fits(g, s) && Executed(Counting(), stages, allowed, n, s) != Rounds(Counting(), order, n, s)
  {
    var j :| 0 <= j < |stages| && ExecStage.Threaded(allowed, stages[j]);
    var b := stages[j][0][0];
    ConcatMembers(stages[j], b);
    InOrder(stages, j, b);
    s := map[Own(b) := 0];
    CallsInAll(stages, allowed, n, j, b, s);
    RoundsCount(order, n, b, s);
  }

  /** n executions are n rounds, for all blocks and all stores, exactly if no stage is threaded. */
  lemma ExecutionsAreRounds(g: Graph, stages: seq<Stage>, allowed: bool, order: seq<Name>, n: nat)
    requires OrderOf(g, stages, order) && n >= 1 && forall i :: 0 <= i < |stages| ==> NonEmptyPaths(stages[i])
    ensures (forall m: Machine<int>, s: Store<int> :: Fits(g, s) ==> Executed(m, stages, allowed, n, s) == Rounds(m, order, n, s))
            <==> !allowed || forall i :: 0 <= i < |stages| ==> |stages[i]| < 2
  {
    if NoneThreaded(stages, allowed) {
      forall m: Machine<int>, s: Store<int> | Fits(g, s) ensures Executed(m, stages, allowed, n, s) == Rounds(m, order, n, s) {
        UnthreadedIsRounds(g, m, stages, allowed, order, n, s);
      }
    } else {
      var s := ThreadedDiffers(g, stages, allowed, order, n);
      assert Fits(g, s) && Executed(Counting(), stages, allowed, n, s) != Rounds(Counting(), order, n, s);
    }
  }

  lemma UnthreadedIsRounds<V>(g: Graph, m: Machine<V>, stages: seq<Stage>, allowed: bool, order: seq<Name>, n: nat, s: Store<V>)
    requires OrderOf(g, stages, order) && Fits(g, s) && NoneThreaded(stages, allowed)
    ensures Executed(m, stages, allowed, n, s) == Rounds(m, order, n, s)
  {
    SettledExecutions(g, m, stages, allowed, order, 0, n, s);
  }

  // ---- the system ----

  lemma InitializedOrder(g: Graph, stages: seq<Stage>, order: seq<Name>)
    requires Initialized(g, stages) && PortsUsedOnce(g) && Acyclic(g)
    requires Topological(g, order) && Distinct(order) && forall b :: b in order <==> SystemInit.Wanted(g, b)
    ensures OrderOf(g, stages, order)
  {
  }

  /** What an initialized acyclic system computes does not depend on the scheduling of its threads. */
  lemma InitializedSystemIsDeterministic<V>(g: Graph, m: Machine<V>, stages: seq<Stage>, allowed: bool,
                                            passes: seq<seq<seq<seq<Action>>>>, s: Store<V>)
    requires Initialized(g, stages) && PortsUsedOnce(g) && Acyclic(g) && Fits(g, s)
    requires Wakeup(m, stages, allowed, passes)
    ensures Run(m, Concat(Concat(Concat(passes))), s) == Executed(m, stages, allowed, |passes|, s)
  {
    SafeStagesRunnable(g, stages);
    ParallelRefinesSequential(g, m, stages, allowed, passes, s);
  }

  /** Its executions are rounds in any dependency order: from the first on if no stage is threaded, from number 32 on always. */
  lemma InitializedSystemSettles<V>(g: Graph, m: Machine<V>, stages: seq<Stage>, allowed: bool, order: seq<Name>, k: nat, more: nat, s: Store<V>)
    requires Initialized(g, stages) && PortsUsedOnce(g) && Acyclic(g) && Fits(g, s)
    requires Topological(g, order) && Distinct(order) && forall b :: b in order <==> SystemInit.Wanted(g, b)
    requires k >= 32 || NoneThreaded(stages, allowed)
    ensures Executed(m, stages, allowed, k + more, s) == Rounds(m, order, more, Executed(m, stages, allowed, k, s))
  {
    InitializedOrder(g, stages, order);
    SettledExecutions(g, m, stages, allowed, order, k, more, s);
  }
}
