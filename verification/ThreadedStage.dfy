/** What the barrier protocol guarantees: rounds are atomic, always end, and shut down cleanly. */
module ThreadedStage {
  import BlockGraph
  import Sequences
  import ExecMatrix
  import BlockSemantics
  import Schedule
  import opened BarrierProtocol

  /** A state that boss and workers can reach from the start. */
  ghost predicate Reachable<V(!new)>(c: Config<V>, s: State<V>) {
    exists moves :: Execution(c, Initial(c), moves, s)
  }

  /** A stage whose paths may run at the same time. */
  ghost predicate Runnable<V>(g: BlockGraph.Graph, c: Config<V>) {
    BlockSemantics.Fits(g, c.start) && BlockSemantics.ListsApart(g, c.lists)
  }

  lemma ReachableInv<V(!new)>(g: BlockGraph.Graph, c: Config<V>, s: State<V>)
    requires Runnable(g, c) && Reachable(c, s)
    ensures Inv(c, s)
  {
    var moves :| Execution(c, Initial(c), moves, s);
    InvInitial(c);
    InvExecution(g, c, Initial(c), moves, s);
  }

  predicate InRound(boss: BossPc) {
    boss.Continue? || boss.InContinue? || boss.PostProcess? || boss.InPostProcess?
  }

  /** A worker that runs its path does so after its first barrier and before its second barrier of the boss's current round. */
  lemma WorkersRunBetweenBarriers<V(!new)>(g: BlockGraph.Graph, c: Config<V>, s: State<V>, i: nat)
    requires Runnable(g, c) && Reachable(c, s)
    ensures |s.workers| == c.N()
    ensures i < c.N() && s.workers[i].pc.Busy? ==>
              && InRound(s.boss) && !s.boss.Continue? && !s.shutdown && !s.deleted
              && s.workers[i].runs == s.rounds == s.after.generation && s.before.generation == s.rounds + 1
  {
    ReachableInv(g, c, s);
    if i < c.N() && Working(c, s) {
      assert WorkingWorker(|c.lists[i]|, s.workers[i], s.after.generation);
    } else if i < c.N() && Gathering(c, s) {
      assert GatheringWorker(s.workers[i], s.after.generation);
    }
  }

  /** Between the barrier after a round and the barrier before the next one. */
  predicate Parked(pc: WorkerPc) {
    pc.Before? || pc.InBefore? || pc.InAfter?
  }

  /** Back from sync_post_process, every worker has run exactly once per round and none has begun another run. The rounds have left
      the store, whatever other stages did to it in between, as sequential runs would have. */
  lemma RoundsAreComplete<V(!new)>(g: BlockGraph.Graph, c: Config<V>, s: State<V>)
    requires Runnable(g, c) && Reachable(c, s) && s.boss.Idle?
    ensures |s.workers| == c.N() && !s.shutdown && !s.deleted
    ensures forall i :: 0 <= i < c.N() ==> s.workers[i].runs == s.rounds && Parked(s.workers[i].pc)
    ensures Logged(c, s)
  {
    ReachableInv(g, c, s);
    forall i | 0 <= i < c.N()
      ensures s.workers[i].runs == s.rounds
      ensures Parked(s.workers[i].pc)
    {
      assert GatheringWorker(s.workers[i], s.after.generation);
    }
  }

  /** Once shutdown_now has been called no path runs any more and the store keeps still; the barriers go last, when nobody can use them. */
  lemma ShutdownIsClean<V(!new)>(g: BlockGraph.Graph, c: Config<V>, s: State<V>)
    requires Runnable(g, c) && Reachable(c, s) && s.shutdown
    ensures |s.workers| == c.N() && forall i :: 0 <= i < c.N() ==> s.workers[i].runs == s.rounds && !s.workers[i].pc.Busy?
    ensures s.store == s.base && Logged(c, s)
    ensures s.deleted <==> s.boss.Gone?
    ensures s.deleted ==> AllExited(s.workers) && forall move :: !Enabled(c, s, move)
  {
    ReachableInv(g, c, s);
    forall i | 0 <= i < c.N() ensures s.workers[i].runs == s.rounds && !s.workers[i].pc.Busy? {
      assert Gathering(c, s) ==> GatheringWorker(s.workers[i], s.after.generation);
    }
  }

  // ---- the store after threaded rounds ----

  /** Each round of threads that run the paths of a safe stage does what one sequential pass over the stage does. */
  lemma ThreadedStageIsSequential<V(!new)>(g: BlockGraph.Graph, c: Config<V>, stage: ExecMatrix.Stage, s: State<V>)
    requires BlockSemantics.Fits(g, c.start) && ExecMatrix.PathsIndependent(g, stage) && BlockGraph.Distinct(Sequences.Concat(stage))
    requires c.lists == Schedule.StageLists(c.m, stage) && Reachable(c, s)
    ensures |s.log| == s.rounds
    ensures forall k :: 0 <= k < s.rounds ==> s.log[k].end == BlockSemantics.Run(c.m, BlockSemantics.ProcessAll(c.m, Sequences.Concat(stage)), s.log[k].start)
  {
    Schedule.StageListsApart(g, c.m, stage);
    ReachableInv(g, c, s);
    Schedule.ProcessAllConcat(c.m, stage);
  }

  // ---- progress ----

  lemma {:induction false} SomeoneAwake(workers: seq<Worker>, pc: WorkerPc)
    requires Sleepers(workers, pc) < |workers|
    ensures exists i :: 0 <= i < |workers| && workers[i].pc != pc
  {
    if workers[0].pc == pc {
      SomeoneAwake(workers[1..], pc);
      var i :| 0 <= i < |workers| - 1 && workers[1..][i].pc != pc;
      assert workers[i + 1].pc != pc;
    }
  }

  predicate ByThreads<V>(move: Move<V>) {
    move.WorkerMove? || move.BossMove?
  }

  /** While the boss is not between rounds and has not finished, somebody can move. */
  lemma NoDeadlock<V(!new)>(c: Config<V>, s: State<V>)
    requires Inv(c, s) && !s.boss.Idle? && !s.boss.Gone?
    ensures exists move :: ByThreads(move) && Enabled(c, s, move)
  {
    var r := s.after.generation;
    if Enabled(c, s, BossMove) {
    } else if Gathering(c, s) {
      SomeoneAwake(s.workers, InBefore(r));
      var i :| 0 <= i < |s.workers| && s.workers[i].pc != InBefore(r);
      assert GatheringWorker(s.workers[i], r);
      assert Enabled(c, s, WorkerMove(i));
    } else if Working(c, s) {
      SomeoneAwake(s.workers, InAfter(r));
      var i :| 0 <= i < |s.workers| && s.workers[i].pc != InAfter(r);
      assert WorkingWorker(|c.lists[i]|, s.workers[i], r);
      assert Enabled(c, s, WorkerMove(i));
    } else {
      var i :| 0 <= i < |s.workers| && !s.workers[i].pc.Exited?;
      assert Enabled(c, s, WorkerMove(i));
    }
  }

  lemma {:induction false} AllCounted(workers: seq<Worker>, pc: WorkerPc)
    requires forall i :: 0 <= i < |workers| ==> workers[i].pc == pc
    ensures Sleepers(workers, pc) == |workers|
  {
    if workers != [] {
      AllCounted(workers[1..], pc);
    }
  }

  /** A thread that has not arrived at the barrier before the round, or at the one after it. */
  ghost predicate SomeoneMissing<V>(s: State<V>, worker: WorkerPc, boss: set<BossPc>) {
    s.boss !in boss || exists k :: 0 <= k < |s.workers| && s.workers[k].pc != worker
  }

  /** A worker waits only at a barrier, and only while some thread has not arrived there. */
  lemma WorkersWaitForSomeone<V(!new)>(g: BlockGraph.Graph, c: Config<V>, s: State<V>, i: nat)
    requires Runnable(g, c) && Reachable(c, s) && i < c.N()
    ensures |s.workers| == c.N()
    ensures var r, q, pc := s.before.generation, s.after.generation, s.workers[i].pc;
            Enabled(c, s, WorkerMove(i)) || pc.Exited?
            || (pc == InBefore(r) && SomeoneMissing(s, InBefore(r), {InContinue(r), InShutdown(r)}))
            || (pc == InAfter(q) && SomeoneMissing(s, InAfter(q), {InPostProcess(q)}))
  {
    ReachableInv(g, c, s);
    var r, q := s.before.generation, s.after.generation;
    if !SomeoneMissing(s, InBefore(r), {InContinue(r), InShutdown(r)}) {
      AllCounted(s.workers, InBefore(r));
    }
    if !SomeoneMissing(s, InAfter(q), {InPostProcess(q)}) {
      AllCounted(s.workers, InAfter(q));
    }
    assert Gathering(c, s) ==> GatheringWorker(s.workers[i], s.after.generation);
    assert Working(c, s) ==> WorkingWorker(|c.lists[i]|, s.workers[i], s.after.generation);
  }

  /** So does the boss, except that it joins the workers in the end. */
  lemma BossWaitsForSomeone<V(!new)>(g: BlockGraph.Graph, c: Config<V>, s: State<V>)
    requires Runnable(g, c) && Reachable(c, s)
    ensures var r, q := s.before.generation, s.after.generation;
            Enabled(c, s, BossMove) || s.boss.Idle? || s.boss.Gone? || (s.boss.Joining? && !AllExited(s.workers))
            || (s.boss in {InContinue(r), InShutdown(r)} && SomeoneMissing(s, InBefore(r), {s.boss}))
            || (s.boss == InPostProcess(q) && SomeoneMissing(s, InAfter(q), {s.boss}))
  {
    ReachableInv(g, c, s);
    var r, q := s.before.generation, s.after.generation;
    if !SomeoneMissing(s, InBefore(r), {s.boss}) {
      AllCounted(s.workers, InBefore(r));
    }
    if !SomeoneMissing(s, InAfter(q), {s.boss}) {
      AllCounted(s.workers, InAfter(q));
    }
  }

  /** How many runs every worker will have finished, or begun to leave, once the boss has got what it asked for. */
  function Target<V>(s: State<V>): nat {
    s.rounds + (if InRound(s.boss) then 1 else 0) + (if s.shutdown then 1 else 0)
  }

  /** An upper bound on the steps a worker can still take before it has to wait for the boss. */
  function Left(steps: nat, w: Worker, target: nat): int {
    var round := if target > w.runs then steps + 6 else 0;
    match w.pc
    case After => 3 + round
    case InAfter(_) => 2 + round
    case Before => 1 + round
    case InBefore(_) => round
    case Check => steps + 5
    case Busy(k) => if k <= steps then steps + 4 - k else 0
    case Exited => 0
  }

  function BossLeft(boss: BossPc): nat {
    match boss
    case Continue => 4
    case InContinue(_) => 3
    case PostProcess => 2
    case InPostProcess(_) => 1
    case Shutdown => 3
    case InShutdown(_) => 2
    case Joining => 1
    case _ => 0
  }

  function LeftAll(lists: seq<seq<BlockSemantics.Action>>, workers: seq<Worker>, target: nat): (n: nat)
    requires |lists| == |workers|
  {
    if workers == [] then 0 else
    var first := Left(|lists[0]|, workers[0], target);
    (if first > 0 then first else 0) + LeftAll(lists[1..], workers[1..], target)
  }

  lemma {:induction false} LeftAllUpdate(lists: seq<seq<BlockSemantics.Action>>, workers: seq<Worker>, target: nat, i: nat, w: Worker)
    requires |lists| == |workers| && i < |workers|
    requires 0 <= Left(|lists[i]|, w, target) < Left(|lists[i]|, workers[i], target)
    ensures LeftAll(lists, workers[i := w], target) < LeftAll(lists, workers, target)
  {
    if i == 0 {
      assert workers[0 := w][1..] == workers[1..];
    } else {
      assert workers[i := w][1..] == workers[1..][i - 1 := w];
      LeftAllUpdate(lists[1..], workers[1..], target, i - 1, w);
    }
  }

  function Remaining<V>(c: Config<V>, s: State<V>): nat
    requires |s.workers| == c.N()
  {
    LeftAll(c.lists, s.workers, Target(s)) + BossLeft(s.boss)
  }

  lemma WorkerGetsOn<V>(c: Config<V>, s: State<V>, i: nat)
    requires Inv(c, s) && Enabled(c, s, WorkerMove(i))
    ensures var w' := WorkerStep(c, s, i).workers[i];
            0 <= Left(|c.lists[i]|, w', Target(s)) < Left(|c.lists[i]|, s.workers[i], Target(s))
  {
    var r := s.after.generation;
    if Gathering(c, s) {
      assert GatheringWorker(s.workers[i], r);
      if s.workers[i].pc.Before? && Opens(s.before) {
        OthersAsleep(s.workers, InBefore(r), i);
      }
    } else if Working(c, s) {
      assert WorkingWorker(|c.lists[i]|, s.workers[i], r);
    }
  }

  /** A worker moves nothing but itself and, unless it runs its path, one of the barriers. */
  lemma WorkerStepFrame<V>(c: Config<V>, s: State<V>, i: nat)
    requires i < |s.workers| && i < c.N()
    ensures var s' := WorkerStep(c, s, i);
            && s' == s.(workers := s.workers[i := s'.workers[i]], before := s'.before, after := s'.after, store := s'.store)
            && (!s.workers[i].pc.Busy? ==> s'.store == s.store)
  {
    var w := s.workers[i];
    match w.pc
    case Before =>
    case InBefore(_) =>
    case Check =>
    case Busy(k) =>
    case After =>
    case InAfter(_) =>
    case Exited =>
      assert s.workers[i := w] == s.workers;
  }

  /** Every step of a boss or worker brings the round, or the shutdown, closer to its end. */
  lemma StepsRunOut<V>(c: Config<V>, s: State<V>, move: Move<V>)
    requires Inv(c, s) && ByThreads(move) && Enabled(c, s, move)
    ensures var s' := Take(c, s, move);
            |s'.workers| == c.N() && Target(s') == Target(s) && s'.shutdown == s.shutdown && Remaining(c, s') < Remaining(c, s)
  {
    if move.WorkerMove? {
      var i, s' := move.i, WorkerStep(c, s, move.i);
      WorkerGetsOn(c, s, i);
      WorkerStepFrame(c, s, i);
      LeftAllUpdate(c.lists, s.workers, Target(s), i, s'.workers[i]);
    }
  }

  /** Nothing can happen any more without the boss being given something to do. */
  ghost predicate Quiet<V(!new)>(c: Config<V>, s: State<V>) {
    forall move :: ByThreads(move) ==> !Enabled(c, s, move)
  }

  /** A round on its way, or just over with its outcome in the store. */
  ghost predicate Underway<V>(s: State<V>) {
    InRound(s.boss) || (s.boss.Idle? && s.log != [] && s.log[|s.log| - 1] == Round(s.base, s.store))
  }

  lemma UnderwayKept<V>(c: Config<V>, s: State<V>, move: Move<V>)
    requires Inv(c, s) && Underway(s) && ByThreads(move) && Enabled(c, s, move)
    ensures Underway(Take(c, s, move)) && Take(c, s, move).base == s.base
  {
    if move.WorkerMove? {
      WorkerStepFrame(c, s, move.i);
      if s.boss.Idle? {
        assert Gathering(c, s) && GatheringWorker(s.workers[move.i], s.after.generation);
      }
    } else {
      BossStepUnderway(c, s);
    }
  }

  lemma BossStepUnderway<V>(c: Config<V>, s: State<V>)
    requires InRound(s.boss)
    ensures Underway(BossStep(c, s)) && BossStep(c, s).base == s.base
  {
  }

  lemma {:induction false} RoundDelivers<V>(g: BlockGraph.Graph, c: Config<V>, s: State<V>, moves: seq<Move<V>>, end: State<V>)
    requires Runnable(g, c) && Inv(c, s) && Underway(s)
    requires Execution(c, s, moves, end) && forall move :: move in moves ==> ByThreads(move)
    ensures Underway(end) && end.base == s.base
    decreases |moves|
  {
    if moves != [] {
      assert moves[0] in moves;
      UnderwayKept(c, s, moves[0]);
      InvStep(g, c, s, moves[0]);
      RoundDelivers(g, c, Take(c, s, moves[0]), moves[1..], end);
    }
  }

  lemma {:induction false} ShutdownKeepsBase<V>(g: BlockGraph.Graph, c: Config<V>, s: State<V>, moves: seq<Move<V>>, end: State<V>)
    requires Runnable(g, c) && Inv(c, s) && s.shutdown
    requires Execution(c, s, moves, end) && forall move :: move in moves ==> ByThreads(move)
    ensures Inv(c, end) && end.shutdown && end.base == s.base
    decreases |moves|
  {
    if moves != [] {
      assert moves[0] in moves;
      InvStep(g, c, s, moves[0]);
      ShutdownKeepsBase(g, c, Take(c, s, moves[0]), moves[1..], end);
    }
  }

  lemma {:induction false} ThreadMovesEnd<V(!new)>(g: BlockGraph.Graph, c: Config<V>, s: State<V>, moves: seq<Move<V>>, end: State<V>)
    requires Runnable(g, c) && Inv(c, s) && Execution(c, s, moves, end) && forall move :: move in moves ==> ByThreads(move)
    ensures Inv(c, end) && Target(end) == Target(s) && end.shutdown == s.shutdown
    ensures |moves| + Remaining(c, end) <= Remaining(c, s)
    ensures Quiet(c, end) ==> end.boss.Idle? || end.boss.Gone?
    decreases |moves|
  {
    if moves == [] {
      if Quiet(c, end) && !end.boss.Idle? && !end.boss.Gone? {
        NoDeadlock(c, end);
      }
    } else {
      assert moves[0] in moves;
      StepsRunOut(c, s, moves[0]);
      InvStep(g, c, s, moves[0]);
      ThreadMovesEnd(g, c, Take(c, s, moves[0]), moves[1..], end);
    }
  }

  /** Whatever the scheduling, a round that the boss starts ends: with one more run of every worker, the boss idle again, and the
      store as one sequential run of all the lists leaves it. */
  lemma EveryRoundEnds<V(!new)>(g: BlockGraph.Graph, c: Config<V>, s: State<V>, moves: seq<Move<V>>, end: State<V>)
    requires Runnable(g, c) && Reachable(c, s) && s.boss.Idle?
    requires Execution(c, Take(c, s, IssueRound), moves, end) && forall move :: move in moves ==> ByThreads(move)
    ensures |s.workers| == |end.workers| == c.N() && |moves| <= Remaining(c, Take(c, s, IssueRound))
    ensures Quiet(c, end) ==> end.boss.Idle? && end.rounds == s.rounds + 1
    ensures Quiet(c, end) ==> forall i :: 0 <= i < c.N() ==> end.workers[i].runs == s.workers[i].runs + 1
    ensures Quiet(c, end) ==> end.store == Whole(c, s.store)
  {
    ReachableInv(g, c, s);
    InvStep(g, c, s, IssueRound);
    RoundDelivers(g, c, Take(c, s, IssueRound), moves, end);
    ThreadMovesEnd(g, c, Take(c, s, IssueRound), moves, end);
    if Quiet(c, end) {
      forall i | 0 <= i < c.N() ensures end.workers[i].runs == s.workers[i].runs + 1 {
        assert GatheringWorker(s.workers[i], s.after.generation) && GatheringWorker(end.workers[i], end.after.generation);
      }
    }
  }

  lemma NoRunsInShutdown<V>(c: Config<V>, s: State<V>, end: State<V>)
    requires Inv(c, s) && s.boss.Idle? && Inv(c, end) && end.shutdown && Target(end) == s.rounds + 1
    ensures |s.workers| == |end.workers| == c.N() && forall i :: 0 <= i < c.N() ==> end.workers[i].runs == s.workers[i].runs
  {
    forall i | 0 <= i < c.N() ensures end.workers[i].runs == s.workers[i].runs {
      assert GatheringWorker(s.workers[i], s.after.generation);
      assert Gathering(c, end) ==> GatheringWorker(end.workers[i], end.after.generation);
    }
  }

  /** Whatever the scheduling, shutdown_now returns: all workers have left without another run, then the barriers are deleted. The
      store does not change. */
  lemma ShutdownEnds<V(!new)>(g: BlockGraph.Graph, c: Config<V>, s: State<V>, moves: seq<Move<V>>, end: State<V>)
    requires Runnable(g, c) && Reachable(c, s) && s.boss.Idle?
    requires Execution(c, Take(c, s, IssueShutdown), moves, end) && forall move :: move in moves ==> ByThreads(move)
    ensures |s.workers| == |end.workers| == c.N() && |moves| <= Remaining(c, Take(c, s, IssueShutdown))
    ensures forall i :: 0 <= i < c.N() ==> end.workers[i].runs == s.workers[i].runs
    ensures end.store == s.store
    ensures Quiet(c, end) ==> end.boss.Gone? && end.deleted && AllExited(end.workers)
  {
    ReachableInv(g, c, s);
    InvStep(g, c, s, IssueShutdown);
    ShutdownKeepsBase(g, c, Take(c, s, IssueShutdown), moves, end);
    ThreadMovesEnd(g, c, Take(c, s, IssueShutdown), moves, end);
    NoRunsInShutdown(c, s, end);
  }
}
