/** What the threads of a stage can do in one round: exactly the interleavings of its paths. */
module RoundTraces {
  import BlockGraph
  import ExecMatrix
  import opened BlockSemantics
  import Schedule
  import Sequences
  import opened BarrierProtocol
  import opened ThreadedStage

  /** The step of a path that the move makes, if it makes one. */
  function Made<V>(c: Config<V>, s: State<V>, move: Move<V>): seq<Action> {
    if move.WorkerMove? && move.i < |s.workers| && move.i < c.N() && s.workers[move.i].pc.Busy? && s.workers[move.i].pc.done < |c.lists[move.i]|
    then [c.lists[move.i][s.workers[move.i].pc.done]] else []
  }

  /** All steps of paths that the moves make, in the order in which they are made. */
  function Trace<V>(c: Config<V>, s: State<V>, moves: seq<Move<V>>): seq<Action>
    decreases |moves|
  {
    if moves == [] || !Enabled(c, s, moves[0]) then [] else Made(c, s, moves[0]) + Trace(c, Take(c, s, moves[0]), moves[1..])
  }

  ghost predicate Threads<V>(moves: seq<Move<V>>) {
    forall move :: move in moves ==> ByThreads(move)
  }

  /** The moves of the threads from the start of a round until nobody can move any more. */
  ghost predicate RoundOf<V(!new)>(c: Config<V>, s: State<V>, moves: seq<Move<V>>, end: State<V>) {
    Enabled(c, s, IssueRound) && Execution(c, Take(c, s, IssueRound), moves, end) && Threads(moves) && Quiet(c, end)
  }

  // ---- putting runs together ----

  lemma {:induction false} Joined<V>(c: Config<V>, s: State<V>, moves: seq<Move<V>>, mid: State<V>, more: seq<Move<V>>, end: State<V>)
    requires Execution(c, s, moves, mid) && Execution(c, mid, more, end)
    ensures Execution(c, s, moves + more, end) && Trace(c, s, moves + more) == Trace(c, s, moves) + Trace(c, mid, more)
    decreases |moves|
  {
    if moves == [] {
      assert moves + more == more;
    } else {
      assert (moves + more)[0] == moves[0] && (moves + more)[1..] == moves[1..] + more;
      Joined(c, Take(c, s, moves[0]), moves[1..], mid, more, end);
    }
  }

  lemma OneMove<V>(c: Config<V>, s: State<V>, move: Move<V>)
    requires Enabled(c, s, move)
    ensures Execution(c, s, [move], Take(c, s, move)) && Trace(c, s, [move]) == Made(c, s, move)
  {
    assert [move][1..] == [];
    assert Execution(c, Take(c, s, move), [], Take(c, s, move));
  }

  lemma MoveFirst<V>(c: Config<V>, s: State<V>, move: Move<V>, more: seq<Move<V>>, end: State<V>)
    requires Enabled(c, s, move) && Execution(c, Take(c, s, move), more, end)
    ensures Execution(c, s, [move] + more, end) && Trace(c, s, [move] + more) == Made(c, s, move) + Trace(c, Take(c, s, move), more)
  {
    OneMove(c, s, move);
    Joined(c, s, [move], Take(c, s, move), more, end);
  }

  /** The steps of paths are all that the threads do to the store. */
  lemma {:induction false} TraceToStore<V>(c: Config<V>, s: State<V>, moves: seq<Move<V>>, end: State<V>)
    requires Execution(c, s, moves, end) && Threads(moves)
    ensures end.store == Run(c.m, Trace(c, s, moves), s.store)
    decreases |moves|
  {
    if moves != [] {
      assert moves[0] in moves;
      var s1 := Take(c, s, moves[0]);
      MadeToStore(c, s, moves[0]);
      TraceToStore(c, s1, moves[1..], end);
      RunAppend(c.m, Made(c, s, moves[0]), Trace(c, s1, moves[1..]), s.store);
    }
  }

  lemma MadeToStore<V>(c: Config<V>, s: State<V>, move: Move<V>)
    requires ByThreads(move) && Enabled(c, s, move)
    ensures Take(c, s, move).store == Run(c.m, Made(c, s, move), s.store)
  {
    if move.WorkerMove? && s.workers[move.i].pc.Busy? && s.workers[move.i].pc.done < |c.lists[move.i]| {
      RunOne(c.m, c.lists[move.i][s.workers[move.i].pc.done], s.store);
    }
  }

  // ---- a round makes an interleaving ----

  /** How much of its path a worker has run in round number `round`. */
  function RanBy(steps: nat, w: Worker, round: nat): nat {
    if w.runs > round then steps else if w.pc.Busy? then w.pc.done else 0
  }

  function Ran<V>(c: Config<V>, s: State<V>, round: nat): (done: seq<nat>)
    requires |s.workers| == c.N()
    ensures |done| == c.N()
  {
    seq(c.N(), i requires 0 <= i < c.N() => RanBy(|c.lists[i]|, s.workers[i], round))
  }

  /** A worker in the middle of its path is in the round that the boss waits for. */
  lemma BusyIsInRound<V>(c: Config<V>, s: State<V>, i: nat)
    requires Inv(c, s) && i < c.N() && s.workers[i].pc.Busy?
    ensures Working(c, s) && s.workers[i].runs + 1 == Target(s) && s.workers[i].pc.done <= |c.lists[i]|
  {
    assert Gathering(c, s) ==> GatheringWorker(s.workers[i], s.after.generation);
    assert Working(c, s) ==> WorkingWorker(|c.lists[i]|, s.workers[i], s.after.generation);
  }

  lemma WorkerRanOn<V>(c: Config<V>, s: State<V>, i: nat, round: nat)
    requires Inv(c, s) && Enabled(c, s, WorkerMove(i)) && Target(s) == round + 1
    ensures RanBy(|c.lists[i]|, WorkerStep(c, s, i).workers[i], round)
         == RanBy(|c.lists[i]|, s.workers[i], round) + |Made(c, s, WorkerMove(i))|
    ensures Made(c, s, WorkerMove(i)) != [] ==> RanBy(|c.lists[i]|, s.workers[i], round) == s.workers[i].pc.done
  {
    if s.workers[i].pc.Busy? {
      BusyIsInRound(c, s, i);
    }
  }

  lemma RanOn<V>(c: Config<V>, s: State<V>, move: Move<V>, round: nat)
    requires Inv(c, s) && ByThreads(move) && Enabled(c, s, move) && Target(s) == round + 1 && |Take(c, s, move).workers| == c.N()
    ensures var before, now := Ran(c, s, round), Ran(c, Take(c, s, move), round);
            if Made(c, s, move) == [] then now == before
            else before[move.i] < |c.lists[move.i]| && Made(c, s, move) == [c.lists[move.i][before[move.i]]]
                 && now == before[move.i := before[move.i] + 1]
  {
    var before, now := Ran(c, s, round), Ran(c, Take(c, s, move), round);
    if move.WorkerMove? {
      WorkerStepFrame(c, s, move.i);
      WorkerRanOn(c, s, move.i, round);
      assert forall k :: 0 <= k < c.N() && k != move.i ==> now[k] == before[k];
    }
  }

  /** After the steps t of the round number `round`. */
  ghost predicate Shuffling<V>(c: Config<V>, s: State<V>, round: nat, t: seq<Action>) {
    |s.workers| == c.N() && Interleaves(t, c.lists, Ran(c, s, round))
  }

  lemma ShufflesOn<V>(c: Config<V>, s: State<V>, move: Move<V>, round: nat, t: seq<Action>)
    requires Inv(c, s) && ByThreads(move) && Enabled(c, s, move) && Target(s) == round + 1 && |Take(c, s, move).workers| == c.N()
    requires Shuffling(c, s, round, t)
    ensures Shuffling(c, Take(c, s, move), round, t + Made(c, s, move))
  {
    RanOn(c, s, move, round);
    var made := Made(c, s, move);
    if made == [] {
      assert t + made == t;
    } else {
      InterleavesMore(t, c.lists, Ran(c, s, round), move.i);
    }
  }

  lemma ShuffleStep<V>(g: BlockGraph.Graph, c: Config<V>, s: State<V>, move: Move<V>, round: nat, t: seq<Action>) returns (s1: State<V>)
    requires Runnable(g, c) && Inv(c, s) && ByThreads(move) && Enabled(c, s, move) && Target(s) == round + 1
    requires Shuffling(c, s, round, t)
    ensures s1 == Take(c, s, move) && Inv(c, s1) && Target(s1) == round + 1 && Shuffling(c, s1, round, t + Made(c, s, move))
  {
    s1 := Take(c, s, move);
    StepsRunOut(c, s, move);
    InvStep(g, c, s, move);
    ShufflesOn(c, s, move, round, t);
  }

  lemma {:induction false} TraceShuffles<V>(g: BlockGraph.Graph, c: Config<V>, s: State<V>, moves: seq<Move<V>>, end: State<V>,
                                            round: nat, t: seq<Action>)
    requires Runnable(g, c) && Inv(c, s) && Execution(c, s, moves, end) && Threads(moves) && Target(s) == round + 1
    requires Shuffling(c, s, round, t)
    ensures Shuffling(c, end, round, t + Trace(c, s, moves))
    decreases |moves|
  {
    if moves == [] {
      assert t + [] == t;
    } else {
      assert moves[0] in moves;
      var s1 := ShuffleStep(g, c, s, moves[0], round, t);
      TraceShuffles(g, c, s1, moves[1..], end, round, t + Made(c, s, moves[0]));
      Sequences.Assoc(t, Made(c, s, moves[0]), Trace(c, s1, moves[1..]));
    }
  }

  lemma NoneRanYet<V(!new)>(g: BlockGraph.Graph, c: Config<V>, s: State<V>)
    requires Runnable(g, c) && Reachable(c, s) && s.boss.Idle?
    ensures Enabled(c, s, IssueRound) && Inv(c, Take(c, s, IssueRound)) && Target(Take(c, s, IssueRound)) == s.rounds + 1
    ensures Shuffling(c, Take(c, s, IssueRound), s.rounds, [])
  {
    RoundsAreComplete(g, c, s);
    ReachableInv(g, c, s);
    InvStep(g, c, s, IssueRound);
  }

  lemma AllHaveRun<V(!new)>(c: Config<V>, end: State<V>, round: nat, t: seq<Action>)
    requires Shuffling(c, end, round, t) && forall i :: 0 <= i < c.N() ==> end.workers[i].runs == round + 1
    ensures Interleaves(t, c.lists, Schedule.Lengths(c.lists))
  {
    assert Ran(c, end, round) == Schedule.Lengths(c.lists);
  }

  /** Whatever the scheduling, what the workers do in a round is an interleaving of their paths, each of them complete. */
  lemma RoundInterleaves<V(!new)>(g: BlockGraph.Graph, c: Config<V>, s: State<V>, moves: seq<Move<V>>, end: State<V>)
    requires Runnable(g, c) && Reachable(c, s) && s.boss.Idle? && RoundOf(c, s, moves, end)
    ensures Interleaves(Trace(c, Take(c, s, IssueRound), moves), c.lists, Schedule.Lengths(c.lists))
  {
    var s1 := Take(c, s, IssueRound);
    NoneRanYet(g, c, s);
    TraceShuffles(g, c, s1, moves, end, s.rounds, []);
    assert [] + Trace(c, s1, moves) == Trace(c, s1, moves);
    EveryRoundEnds(g, c, s, moves, end);
    RoundsAreComplete(g, c, s);
    AllHaveRun(c, end, s.rounds, Trace(c, s1, moves));
  }

  // ---- every interleaving is made by some round ----

  /** Every worker has run as much of its path as `done` says, and stands in the middle of it. */
  ghost predicate AllBusy<V>(c: Config<V>, s: State<V>, done: seq<nat>) {
    Working(c, s) && |done| == c.N() && forall i :: 0 <= i < c.N() ==> s.workers[i].pc == Busy(done[i])
  }

  /** The round has been started, and no worker has taken a step of its path. */
  ghost predicate Starting<V>(c: Config<V>, s: State<V>) {
    || (Gathering(c, s) && (s.boss.Continue? || s.boss.InContinue?))
    || (Working(c, s) && forall i :: 0 <= i < c.N() ==> s.workers[i].pc.InBefore? || s.workers[i].pc.Check? || s.workers[i].pc == Busy(0))
  }

  /** A worker that is not yet in the middle of its path gets there without waiting for others to run theirs. */
  lemma StartingMoves<V(!new)>(g: BlockGraph.Graph, c: Config<V>, s: State<V>) returns (move: Move<V>)
    requires Runnable(g, c) && Starting(c, s) && !AllBusy(c, s, seq(c.N(), i => 0))
    ensures ByThreads(move) && Enabled(c, s, move) && Made(c, s, move) == [] && Starting(c, Take(c, s, move))
  {
    if Gathering(c, s) {
      NoDeadlock(c, s);
      move :| ByThreads(move) && Enabled(c, s, move);
      GatheringStarts(g, c, s, move);
    } else {
      var i :| 0 <= i < c.N() && s.workers[i].pc != Busy(0);
      assert WorkingWorker(|c.lists[i]|, s.workers[i], s.after.generation);
      move := WorkerMove(i);
      InvStep(g, c, s, move);
      assert Working(c, Take(c, s, move));
    }
  }

  lemma GatheringStarts<V>(g: BlockGraph.Graph, c: Config<V>, s: State<V>, move: Move<V>)
    requires Runnable(g, c) && Gathering(c, s) && Starting(c, s) && ByThreads(move) && Enabled(c, s, move)
    ensures Made(c, s, move) == [] && Starting(c, Take(c, s, move))
  {
    InvStep(g, c, s, move);
    assert move.WorkerMove? ==> GatheringWorker(s.workers[move.i], s.after.generation);
  }

  /** The threads can all get to the start of their paths. */
  lemma {:induction false} AllStart<V(!new)>(g: BlockGraph.Graph, c: Config<V>, s: State<V>) returns (moves: seq<Move<V>>, end: State<V>)
    requires Runnable(g, c) && Starting(c, s) && Inv(c, s)
    ensures Execution(c, s, moves, end) && Threads(moves) && Trace(c, s, moves) == [] && AllBusy(c, end, seq(c.N(), i => 0))
    decreases Remaining(c, s)
  {
    if AllBusy(c, s, seq(c.N(), i => 0)) {
      moves, end := [], s;
    } else {
      var move := StartingMoves(g, c, s);
      StepsRunOut(c, s, move);
      var more;
      more, end := AllStart(g, c, Take(c, s, move));
      moves := [move] + more;
      MoveFirst(c, s, move, more, end);
    }
  }

  /** A worker in the middle of its path can take the next step at any time. */
  lemma StepAnyTime<V>(g: BlockGraph.Graph, c: Config<V>, s: State<V>, done: seq<nat>, i: nat)
    requires Runnable(g, c) && AllBusy(c, s, done) && i < c.N() && done[i] < |c.lists[i]|
    ensures Enabled(c, s, WorkerMove(i)) && Made(c, s, WorkerMove(i)) == [c.lists[i][done[i]]]
    ensures AllBusy(c, Take(c, s, WorkerMove(i)), done[i := done[i] + 1])
  {
    InvStep(g, c, s, WorkerMove(i));
  }

  lemma FollowOne<V(!new)>(g: BlockGraph.Graph, c: Config<V>, s: State<V>, front: seq<Move<V>>, mid: State<V>, before: seq<nat>, i: nat)
    returns (moves: seq<Move<V>>, end: State<V>)
    requires Runnable(g, c) && Execution(c, s, front, mid) && Threads(front) && AllBusy(c, mid, before)
    requires i < c.N() && before[i] < |c.lists[i]|
    ensures Execution(c, s, moves, end) && Threads(moves) && Trace(c, s, moves) == Trace(c, s, front) + [c.lists[i][before[i]]]
    ensures AllBusy(c, end, before[i := before[i] + 1])
  {
    var move := WorkerMove(i);
    StepAnyTime(g, c, mid, before, i);
    OneMove(c, mid, move);
    moves, end := front + [move], Take(c, mid, move);
    Joined(c, s, front, mid, [move], end);
  }

  lemma NothingTaken(lists: seq<seq<Action>>, done: seq<nat>)
    requires |done| == |lists| && Interleaves([], lists, done)
    ensures done == seq(|lists|, i => 0)
  {
  }

  lemma LastOff(t: seq<Action>, lists: seq<seq<Action>>, done: seq<nat>) returns (i: nat, before: seq<nat>, rest: seq<Action>)
    requires |done| == |lists| && Interleaves(t, lists, done) && t != []
    ensures i < |lists| && |before| == |lists| && |rest| < |t| && Interleaves(rest, lists, before) && before[i] < |lists[i]|
    ensures done == before[i := before[i] + 1] && t == rest + [lists[i][before[i]]]
  {
    i, before := LastTaken(t, lists, done);
    rest := t[..|t| - 1];
  }

  /** From the start of the paths, the workers can follow any shuffle of their steps. */
  lemma {:induction false} Follow<V(!new)>(g: BlockGraph.Graph, c: Config<V>, s: State<V>, t: seq<Action>, done: seq<nat>)
    returns (moves: seq<Move<V>>, end: State<V>)
    requires Runnable(g, c) && AllBusy(c, s, seq(c.N(), i => 0)) && |done| == c.N() && Interleaves(t, c.lists, done)
    ensures Execution(c, s, moves, end) && Threads(moves) && Trace(c, s, moves) == t && AllBusy(c, end, done)
    decreases |t|
  {
    if t == [] {
      moves, end := [], s;
      NothingTaken(c.lists, done);
    } else {
      var i, before, rest := LastOff(t, c.lists, done);
      var front, mid := Follow(g, c, s, rest, before);
      moves, end := FollowOne(g, c, s, front, mid, before, i);
    }
  }

  /** No worker has a step of its path left in this round. */
  ghost predicate NothingLeft<V>(c: Config<V>, s: State<V>) {
    || (Gathering(c, s) && (s.boss.InPostProcess? || s.boss.Idle?))
    || (Working(c, s) && forall i :: 0 <= i < c.N() ==> s.workers[i].pc in {Busy(|c.lists[i]|), After, InAfter(s.after.generation)})
  }

  lemma NothingLeftStays<V>(g: BlockGraph.Graph, c: Config<V>, s: State<V>, move: Move<V>)
    requires Runnable(g, c) && NothingLeft(c, s) && ByThreads(move) && Enabled(c, s, move)
    ensures Inv(c, s) && Made(c, s, move) == [] && NothingLeft(c, Take(c, s, move))
  {
    if Gathering(c, s) {
      GatheringStays(g, c, s, move);
    } else {
      InvStep(g, c, s, move);
    }
  }

  lemma GatheringStays<V>(g: BlockGraph.Graph, c: Config<V>, s: State<V>, move: Move<V>)
    requires Runnable(g, c) && Gathering(c, s) && (s.boss.InPostProcess? || s.boss.Idle?) && ByThreads(move) && Enabled(c, s, move)
    ensures Made(c, s, move) == [] && NothingLeft(c, Take(c, s, move))
  {
    InvStep(g, c, s, move);
    assert move.WorkerMove? ==> GatheringWorker(s.workers[move.i], s.after.generation);
  }

  /** With all paths run, the round comes to its end without another step of a path. */
  lemma {:induction false} Finish<V(!new)>(g: BlockGraph.Graph, c: Config<V>, s: State<V>) returns (moves: seq<Move<V>>, end: State<V>)
    requires Runnable(g, c) && NothingLeft(c, s) && Inv(c, s)
    ensures Execution(c, s, moves, end) && Threads(moves) && Trace(c, s, moves) == [] && Quiet(c, end)
    decreases Remaining(c, s)
  {
    if Quiet(c, s) {
      moves, end := [], s;
    } else {
      var move :| ByThreads(move) && Enabled(c, s, move);
      NothingLeftStays(g, c, s, move);
      InvStep(g, c, s, move);
      StepsRunOut(c, s, move);
      var more;
      more, end := Finish(g, c, Take(c, s, move));
      moves := [move] + more;
      MoveFirst(c, s, move, more, end);
    }
  }

  lemma IssuedStarts<V(!new)>(g: BlockGraph.Graph, c: Config<V>, s: State<V>) returns (s1: State<V>)
    requires Runnable(g, c) && Reachable(c, s) && s.boss.Idle?
    ensures Enabled(c, s, IssueRound) && s1 == Take(c, s, IssueRound) && Starting(c, s1) && Inv(c, s1)
  {
    ReachableInv(g, c, s);
    s1 := Take(c, s, IssueRound);
    InvStep(g, c, s, IssueRound);
  }

  /** Every interleaving of the complete paths is made by some round. */
  lemma InterleavingHappens<V(!new)>(g: BlockGraph.Graph, c: Config<V>, s: State<V>, t: seq<Action>) returns (moves: seq<Move<V>>, end: State<V>)
    requires Runnable(g, c) && Reachable(c, s) && s.boss.Idle? && Interleaves(t, c.lists, Schedule.Lengths(c.lists))
    ensures RoundOf(c, s, moves, end) && Trace(c, Take(c, s, IssueRound), moves) == t
  {
    var s1 := IssuedStarts(g, c, s);
    var first, started := AllStart(g, c, s1);
    var steps, finished := Follow(g, c, started, t, Schedule.Lengths(c.lists));
    AllDone(c, finished);
    var last;
    last, end := Finish(g, c, finished);
    moves := Enclosed(c, s1, first, started, steps, finished, last, end);
  }

  lemma AllDone<V>(c: Config<V>, s: State<V>)
    requires AllBusy(c, s, Schedule.Lengths(c.lists))
    ensures NothingLeft(c, s) && Inv(c, s)
  {
  }

  /** Moves before and after that run no path do not show in the trace. */
  lemma Enclosed<V>(c: Config<V>, s: State<V>, first: seq<Move<V>>, started: State<V>, steps: seq<Move<V>>, finished: State<V>,
                    last: seq<Move<V>>, end: State<V>) returns (moves: seq<Move<V>>)
    requires Execution(c, s, first, started) && Execution(c, started, steps, finished) && Execution(c, finished, last, end)
    requires Threads(first) && Threads(steps) && Threads(last) && Trace(c, s, first) == [] && Trace(c, finished, last) == []
    ensures Execution(c, s, moves, end) && Threads(moves) && Trace(c, s, moves) == Trace(c, started, steps)
  {
    Joined(c, s, first, started, steps, finished);
    Joined(c, s, first + steps, finished, last, end);
    moves := first + steps + last;
  }

  /** In one round the threads do an interleaving of the paths of the stage, and they may do any. */
  lemma RoundsAreInterleavings<V(!new)>(g: BlockGraph.Graph, c: Config<V>, stage: ExecMatrix.Stage, s: State<V>, t: seq<Action>)
    requires Fits(g, c.start) && ExecMatrix.PathsIndependent(g, stage) && BlockGraph.Distinct(Sequences.Concat(stage))
    requires c.lists == Schedule.StageLists(c.m, stage) && Reachable(c, s) && s.boss.Idle?
    ensures Schedule.StageRun(c.m, stage, t)
            <==> exists moves, end :: RoundOf(c, s, moves, end) && Trace(c, Take(c, s, IssueRound), moves) == t
  {
    Schedule.StageListsApart(g, c.m, stage);
    if Schedule.StageRun(c.m, stage, t) {
      var moves, end := InterleavingHappens(g, c, s, t);
    }
    if moves, end :| RoundOf(c, s, moves, end) && Trace(c, Take(c, s, IssueRound), moves) == t {
      RoundInterleaves(g, c, s, moves, end);
    }
  }

  /** Between two rounds the store may become anything, and the boss may start the next round or shut down. */
  lemma BetweenRounds<V(!new)>(c: Config<V>, s: State<V>, store: Store<V>)
    requires Reachable(c, s) && s.boss.Idle? && store.Keys == s.store.Keys
    ensures Reachable(c, s.(store := store))
    ensures Reachable(c, s.(boss := Continue, base := s.store)) && Reachable(c, s.(boss := Shutdown, shutdown := true, base := s.store))
  {
    OneMoreMove(c, s, RunOtherStages(store));
    OneMoreMove(c, s, IssueRound);
    OneMoreMove(c, s, IssueShutdown);
  }

  lemma OneMoreMove<V(!new)>(c: Config<V>, s: State<V>, move: Move<V>)
    requires Reachable(c, s) && Enabled(c, s, move)
    ensures Reachable(c, Take(c, s, move))
  {
    var moves :| Execution(c, Initial(c), moves, s);
    OneMove(c, s, move);
    Joined(c, Initial(c), moves, s, [move], Take(c, s, move));
  }
}
