/** The boss and the workers of a threaded stage, meeting at a barrier before and a barrier after each round. */
module BarrierProtocol {
  import BlockGraph
  import Sequences
  import opened BlockSemantics

  /** boost::barrier: threads still missing in this generation, and the generation. */
  datatype Barrier = Barrier(missing: int, generation: nat)

  /** Where a worker stands in its endless loop; runs counts how often it has finished its path. */
  datatype WorkerPc = Before | InBefore(gen: nat) | Check | Busy(done: nat) | After | InAfter(gen: nat) | Exited
  datatype Worker = Worker(pc: WorkerPc, runs: nat)

  /** Where the boss stands: between rounds, in continue_all, in sync_post_process, or in shutdown_now. */
  datatype BossPc = Idle | Continue | InContinue(gen: nat) | PostProcess | InPostProcess(gen: nat)
                  | Shutdown | InShutdown(gen: nat) | Joining | Gone

  /** The store of the whole system when a round was started, and when the boss came back from it. */
  datatype Round<V> = Round(start: Store<V>, end: Store<V>)

  /** base is the store when the boss left Idle; log holds the rounds that are over. */
  datatype State<V> = State(workers: seq<Worker>, boss: BossPc, before: Barrier, after: Barrier,
                            shutdown: bool, deleted: bool, rounds: nat, store: Store<V>, base: Store<V>, log: seq<Round<V>>)

  /** A stage being run by threads: the steps of each worker's path, and the store in the beginning. */
  datatype Config<!V> = Config(m: Machine<V>, lists: seq<seq<Action>>, start: Store<V>) {
    function N(): nat { |lists| }
  }

  /** Between two rounds the other stages run, and make of the store what they like. */
  datatype Move<V> = WorkerMove(i: nat) | BossMove | IssueRound | IssueShutdown | RunOtherStages(store: Store<V>)

  function Initial<V>(c: Config<V>): State<V> {
    State(seq(c.N(), i => Worker(Before, 0)), Idle, Barrier(c.N() + 1, 0), Barrier(c.N() + 1, 0), false, false, 0, c.start, c.start, [])
  }

  /** barrier::wait up to the point where the thread sleeps or, as the last one, opens the barrier. */
  function Arrive(n: nat, b: Barrier): Barrier {
    if b.missing - 1 == 0 then Barrier(n + 1, b.generation + 1) else Barrier(b.missing - 1, b.generation)
  }

  predicate Opens(b: Barrier) {
    b.missing - 1 == 0
  }

  predicate AllExited(workers: seq<Worker>) {
    forall i :: 0 <= i < |workers| ==> workers[i].pc.Exited?
  }

  predicate Enabled<V>(c: Config<V>, s: State<V>, move: Move<V>) {
    match move
    case WorkerMove(i) =>
      i < |s.workers| && i < c.N() && (
        match s.workers[i].pc
        case InBefore(gen) => s.before.generation != gen
        case InAfter(gen) => s.after.generation != gen
        case Exited => false
        case _ => true)
    case BossMove => (
      match s.boss
      case Idle => false
      case InContinue(gen) => s.before.generation != gen
      case InPostProcess(gen) => s.after.generation != gen
      case InShutdown(gen) => s.before.generation != gen
      case Joining => AllExited(s.workers)
      case Gone => false
      case _ => true)
    case IssueRound => s.boss.Idle?
    case IssueShutdown => s.boss.Idle?
    case RunOtherStages(store) => s.boss.Idle? && store.Keys == s.store.Keys
  }

  /** One iteration step of Worker::operator(). */
  function WorkerStep<V>(c: Config<V>, s: State<V>, i: nat): State<V>
    requires i < |s.workers| && i < c.N()
  {
    var w := s.workers[i];
    match w.pc
    case Before =>
      var pc := if Opens(s.before) then Check else InBefore(s.before.generation);
      s.(workers := s.workers[i := w.(pc := pc)], before := Arrive(c.N(), s.before))
    case InBefore(_) => s.(workers := s.workers[i := w.(pc := Check)])
    case Check => s.(workers := s.workers[i := w.(pc := if s.shutdown then Exited else Busy(0))])
    case Busy(k) =>
      if k < |c.lists[i]| then
        s.(workers := s.workers[i := w.(pc := Busy(k + 1))], store := Perform(c.m, c.lists[i][k], s.store))
      else
        s.(workers := s.workers[i := Worker(After, w.runs + 1)])
    case After =>
      var pc := if Opens(s.after) then Before else InAfter(s.after.generation);
      s.(workers := s.workers[i := w.(pc := pc)], after := Arrive(c.N(), s.after))
    case InAfter(_) => s.(workers := s.workers[i := w.(pc := Before)])
    case Exited => s
  }

  function BackFromRound<V>(s: State<V>): State<V> {
    s.(boss := Idle, rounds := s.rounds + 1, log := s.log + [Round(s.base, s.store)])
  }

  /** One step of the boss inside run() or shutdown_now(). */
  function BossStep<V>(c: Config<V>, s: State<V>): State<V> {
    match s.boss
    case Continue =>
      s.(boss := if Opens(s.before) then PostProcess else InContinue(s.before.generation), before := Arrive(c.N(), s.before))
    case InContinue(_) => s.(boss := PostProcess)
    case PostProcess =>
      if Opens(s.after) then BackFromRound(s.(after := Arrive(c.N(), s.after)))
      else s.(boss := InPostProcess(s.after.generation), after := Arrive(c.N(), s.after))
    case InPostProcess(_) => BackFromRound(s)
    case Shutdown =>
      s.(boss := if Opens(s.before) then Joining else InShutdown(s.before.generation), before := Arrive(c.N(), s.before))
    case InShutdown(_) => s.(boss := Joining)
    case Joining => s.(boss := Gone, deleted := true)
    case _ => s
  }

  function Take<V>(c: Config<V>, s: State<V>, move: Move<V>): State<V>
    requires Enabled(c, s, move)
  {
    match move
    case WorkerMove(i) => WorkerStep(c, s, i)
    case BossMove => BossStep(c, s)
    case IssueRound => s.(boss := Continue, base := s.store)
    case IssueShutdown => s.(boss := Shutdown, shutdown := true, base := s.store)
    case RunOtherStages(store) => s.(store := store)
  }

  /** Every move of the run is enabled when it is taken, and the run ends in `end`. */
  ghost predicate Execution<V>(c: Config<V>, s: State<V>, moves: seq<Move<V>>, end: State<V>)
    decreases |moves|
  {
    if moves == [] then s == end
    else Enabled(c, s, moves[0]) && Execution(c, Take(c, s, moves[0]), moves[1..], end)
  }

  // ---- counting sleepers ----

  function Sleepers(workers: seq<Worker>, pc: WorkerPc): (n: nat)
    ensures n <= |workers|
  {
    if workers == [] then 0 else (if workers[0].pc == pc then 1 else 0) + Sleepers(workers[1..], pc)
  }

  lemma {:induction false} SleepersUpdate(workers: seq<Worker>, pc: WorkerPc, i: nat, w: Worker)
    requires i < |workers|
    ensures Sleepers(workers[i := w], pc) + (if workers[i].pc == pc then 1 else 0)
         == Sleepers(workers, pc) + (if w.pc == pc then 1 else 0)
  {
    if i == 0 {
      assert workers[0 := w][1..] == workers[1..];
    } else {
      assert workers[i := w][1..] == workers[1..][i - 1 := w];
      SleepersUpdate(workers[1..], pc, i - 1, w);
    }
  }

  lemma {:induction false} AllAsleep(workers: seq<Worker>, pc: WorkerPc)
    requires Sleepers(workers, pc) == |workers|
    ensures forall i :: 0 <= i < |workers| ==> workers[i].pc == pc
  {
    if workers != [] {
      AllAsleep(workers[1..], pc);
      assert workers == [workers[0]] + workers[1..];
    }
  }

  lemma {:induction false} NoneAsleep(workers: seq<Worker>, pc: WorkerPc)
    requires forall i :: 0 <= i < |workers| ==> workers[i].pc != pc
    ensures Sleepers(workers, pc) == 0
  {
    if workers != [] {
      NoneAsleep(workers[1..], pc);
    }
  }

  /** If only worker i is missing, all the others sleep. */
  lemma OthersAsleep(workers: seq<Worker>, pc: WorkerPc, i: nat)
    requires i < |workers| && workers[i].pc != pc && Sleepers(workers, pc) >= |workers| - 1
    ensures Sleepers(workers, pc) == |workers| - 1
    ensures forall k :: 0 <= k < |workers| && k != i ==> workers[k].pc == pc
  {
    var full := workers[i := Worker(pc, 0)];
    SleepersUpdate(workers, pc, i, Worker(pc, 0));
    AllAsleep(full, pc);
    assert forall k :: 0 <= k < |workers| && k != i ==> full[k] == workers[k];
  }

  // ---- the invariant ----

  /** The store after one sequential run of all the lists. */
  function Whole<V>(c: Config<V>, base: Store<V>): Store<V> {
    Run(c.m, Sequences.Concat(c.lists), base)
  }

  /** Every round that is over has done what running the lists one after the other does. */
  ghost predicate Logged<V>(c: Config<V>, s: State<V>) {
    && s.store.Keys == s.base.Keys == c.start.Keys
    && |s.log| == s.rounds && forall k :: 0 <= k < |s.log| ==> s.log[k].end == Whole(c, s.log[k].start)
  }

  /** What is known of the store outside of the workers' runs. */
  ghost predicate Resting<V>(c: Config<V>, s: State<V>) {
    match s.boss
    case Idle => true
    case InPostProcess(_) => s.store == Whole(c, s.base)
    case _ => s.store == s.base
  }

  /** How much of its list a worker has run in the current round. */
  function Progress<V>(c: Config<V>, s: State<V>): seq<nat>
    requires |s.workers| == c.N()
  {
    seq(c.N(), i requires 0 <= i < c.N() =>
      match s.workers[i].pc
      case Busy(k) => k
      case After => |c.lists[i]|
      case InAfter(_) => |c.lists[i]|
      case _ => 0)
  }

  /** Between rounds: everyone is on the way to the barrier before round r. */
  ghost predicate Gathering<V>(c: Config<V>, s: State<V>) {
    var r := s.after.generation;
    && |s.workers| == c.N() && s.before.generation == r && !s.deleted
    && s.after.missing == c.N() + 1
    && 1 <= s.before.missing == c.N() + 1 - Sleepers(s.workers, InBefore(r)) - (if s.boss in {InContinue(r), InShutdown(r)} then 1 else 0)
    && (forall i :: 0 <= i < c.N() ==> GatheringWorker(s.workers[i], r))
    && (s.boss in {Idle, Continue, InContinue(r), Shutdown, InShutdown(r)} || (r > 0 && s.boss == InPostProcess(r - 1)))
    && s.rounds == (if s.boss.InPostProcess? then r - 1 else r)
    && s.shutdown == (s.boss.Shutdown? || s.boss.InShutdown?)
    && Logged(c, s) && Resting(c, s)
  }

  predicate GatheringWorker(w: Worker, r: nat) {
    w.runs == r && (w.pc in {Before, InBefore(r)} || (r > 0 && w.pc == InAfter(r - 1)))
  }

  /** The store is what some interleaving of the lists, as far as they are done, makes of base. */
  ghost predicate Shuffled<V>(c: Config<V>, done: seq<nat>, base: Store<V>, store: Store<V>)
    requires |done| == c.N()
  {
    exists t :: Interleaves(t, c.lists, done) && store == Run(c.m, t, base)
  }

  /** Round r runs: the workers are between the two barriers, and the boss waits for them. */
  ghost predicate Working<V>(c: Config<V>, s: State<V>) {
    var r := s.after.generation;
    && |s.workers| == c.N() && s.before.generation == r + 1 && !s.deleted && !s.shutdown && s.rounds == r
    && s.before.missing == c.N() + 1
    && 1 <= s.after.missing == c.N() + 1 - Sleepers(s.workers, InAfter(r)) - (if s.boss == InPostProcess(r) then 1 else 0)
    && s.boss in {InContinue(r), PostProcess, InPostProcess(r)}
    && (forall i :: 0 <= i < c.N() ==> WorkingWorker(|c.lists[i]|, s.workers[i], r))
    && Logged(c, s) && Shuffled(c, Progress(c, s), s.base, s.store)
  }

  predicate WorkingWorker(steps: nat, w: Worker, r: nat) {
    match w.pc
    case InBefore(gen) => gen == r && w.runs == r
    case Check => w.runs == r
    case Busy(k) => k <= steps && w.runs == r
    case After => w.runs == r + 1
    case InAfter(gen) => gen == r && w.runs == r + 1
    case _ => false
  }

  /** After shutdown_now has opened the barrier: the workers leave without running their path. */
  ghost predicate Leaving<V>(c: Config<V>, s: State<V>) {
    var r := s.after.generation;
    && |s.workers| == c.N() && s.before.generation == r + 1 && s.shutdown && s.rounds == r
    && s.boss in {InShutdown(r), Joining, Gone}
    && s.deleted == s.boss.Gone?
    && (forall i :: 0 <= i < c.N() ==> s.workers[i].runs == r && s.workers[i].pc in {InBefore(r), Check, Exited})
    && (s.boss.Gone? ==> AllExited(s.workers))
    && Logged(c, s) && s.store == s.base
  }

  ghost predicate Inv<V>(c: Config<V>, s: State<V>) {
    Gathering(c, s) || Working(c, s) || Leaving(c, s)
  }

  lemma InvInitial<V>(c: Config<V>)
    ensures Gathering(c, Initial(c))
  {
    NoneAsleep(Initial(c).workers, InBefore(0));
  }

  // ---- preservation, one phase at a time ----

  /** The barrier before the round has just opened: every list is still untouched. */
  lemma NothingRunYet<V>(c: Config<V>, s: State<V>)
    requires |s.workers| == c.N() && s.store == s.base
    requires forall i :: 0 <= i < c.N() ==> s.workers[i].pc.InBefore? || s.workers[i].pc.Check?
    ensures Shuffled(c, Progress(c, s), s.base, s.store)
  {
    assert Interleaves([], c.lists, Progress(c, s));
  }

  lemma GatheringWorkerStep<V>(c: Config<V>, s: State<V>, i: nat)
    requires Gathering(c, s) && Enabled(c, s, WorkerMove(i))
    ensures Inv(c, WorkerStep(c, s, i))
  {
    var r, s' := s.after.generation, WorkerStep(c, s, i);
    SleepersUpdate(s.workers, InBefore(r), i, s'.workers[i]);
    if s.workers[i].pc.Before? && Opens(s.before) {
      OthersAsleep(s.workers, InBefore(r), i);
      if s.shutdown {
        assert Leaving(c, s');
      } else {
        NoneAsleep(s'.workers, InAfter(r));
        NothingRunYet(c, s');
        assert Working(c, s');
      }
    } else {
      assert Gathering(c, s');
    }
  }

  lemma GatheringBoss<V>(c: Config<V>, s: State<V>)
    requires Gathering(c, s) && Enabled(c, s, BossMove)
    ensures Inv(c, BossStep(c, s))
  {
    var r, s' := s.after.generation, BossStep(c, s);
    if (s.boss.Continue? || s.boss.Shutdown?) && Opens(s.before) {
      AllAsleep(s.workers, InBefore(r));
      if s.boss.Shutdown? {
        assert Leaving(c, s');
      } else {
        NoneAsleep(s'.workers, InAfter(r));
        NothingRunYet(c, s');
        assert Working(c, s');
      }
    } else {
      assert Gathering(c, s');
    }
  }

  /** The last thread has reached the barrier after the round: every list has been run completely. */
  lemma RoundComplete<V>(g: BlockGraph.Graph, c: Config<V>, s: State<V>)
    requires |s.workers| == c.N() && Shuffled(c, Progress(c, s), s.base, s.store)
    requires Fits(g, s.base) && ListsApart(g, c.lists)
    requires forall i :: 0 <= i < c.N() ==> s.workers[i].pc.After? || s.workers[i].pc.InAfter?
    ensures s.store == Whole(c, s.base)
  {
    ShuffledFully(g, c, Progress(c, s), s.base, s.store);
  }

  lemma ShuffledFully<V>(g: BlockGraph.Graph, c: Config<V>, done: seq<nat>, base: Store<V>, store: Store<V>)
    requires Fits(g, base) && ListsApart(g, c.lists) && |done| == c.N() && Shuffled(c, done, base, store)
    requires forall i :: 0 <= i < c.N() ==> done[i] == |c.lists[i]|
    ensures store == Whole(c, base)
  {
    var t :| Interleaves(t, c.lists, done) && store == Run(c.m, t, base);
    FullyInterleaved(g, c.m, t, c.lists, done, base);
  }

  lemma RunOneMore<V>(c: Config<V>, before: seq<nat>, i: nat, base: Store<V>, store: Store<V>)
    requires |before| == c.N() && i < c.N() && before[i] < |c.lists[i]|
    requires Shuffled(c, before, base, store)
    ensures Shuffled(c, before[i := before[i] + 1], base, Perform(c.m, c.lists[i][before[i]], store))
  {
    var t :| Interleaves(t, c.lists, before) && store == Run(c.m, t, base);
    var a := c.lists[i][before[i]];
    InterleavesMore(t, c.lists, before, i);
    RunLast(c.m, t + [a], base);
    assert (t + [a])[..|t|] == t;
    RunOne(c.m, a, store);
  }

  /** A worker's step extends the shuffle of the current round. */
  lemma WorkingProgress<V>(c: Config<V>, s: State<V>, i: nat)
    requires Working(c, s) && Enabled(c, s, WorkerMove(i)) && (s.workers[i].pc.After? ==> !Opens(s.after))
    ensures var s' := WorkerStep(c, s, i);
            Shuffled(c, Progress(c, s'), s.base, s'.store)
  {
    var r, s' := s.after.generation, WorkerStep(c, s, i);
    var before, now := Progress(c, s), Progress(c, s');
    assert WorkingWorker(|c.lists[i]|, s.workers[i], r);
    if s.workers[i].pc.Busy? && s.workers[i].pc.done < |c.lists[i]| {
      assert now == before[i := before[i] + 1];
      RunOneMore(c, before, i, s.base, s.store);
    } else {
      assert now == before;
    }
  }

  /** The last worker reaches the barrier after the round. */
  lemma WorkingLastArrives<V>(g: BlockGraph.Graph, c: Config<V>, s: State<V>, i: nat)
    requires Working(c, s) && Fits(g, c.start) && ListsApart(g, c.lists)
    requires i < c.N() && s.workers[i].pc.After? && Opens(s.after)
    ensures Gathering(c, WorkerStep(c, s, i))
  {
    var r, s' := s.after.generation, WorkerStep(c, s, i);
    OthersAsleep(s.workers, InAfter(r), i);
    RoundComplete(g, c, s);
    assert WorkingWorker(|c.lists[i]|, s.workers[i], r);
    forall k | 0 <= k < c.N() ensures GatheringWorker(s'.workers[k], r + 1) && s'.workers[k].pc != InBefore(r + 1) {
      assert WorkingWorker(|c.lists[k]|, s.workers[k], r);
    }
    NoneAsleep(s'.workers, InBefore(r + 1));
  }

  /** Any other step of a worker leaves all workers between the two barriers. */
  lemma WorkingWorkersStay<V>(c: Config<V>, s: State<V>, i: nat)
    requires Working(c, s) && Enabled(c, s, WorkerMove(i)) && (s.workers[i].pc.After? ==> !Opens(s.after))
    ensures var r, s' := s.after.generation, WorkerStep(c, s, i);
            && (forall k :: 0 <= k < c.N() ==> WorkingWorker(|c.lists[k]|, s'.workers[k], r))
            && s'.(workers := s.workers, after := s.after, store := s.store) == s && s'.after.generation == r
            && s'.after.missing + Sleepers(s'.workers, InAfter(r)) == s.after.missing + Sleepers(s.workers, InAfter(r))
  {
    var r, s' := s.after.generation, WorkerStep(c, s, i);
    assert WorkingWorker(|c.lists[i]|, s.workers[i], r);
    SleepersUpdate(s.workers, InAfter(r), i, s'.workers[i]);
    assert forall k :: 0 <= k < c.N() && k != i ==> s'.workers[k] == s.workers[k];
  }

  lemma WorkingWorkerStep<V>(g: BlockGraph.Graph, c: Config<V>, s: State<V>, i: nat)
    requires Working(c, s) && Enabled(c, s, WorkerMove(i)) && Fits(g, c.start) && ListsApart(g, c.lists)
    ensures Inv(c, WorkerStep(c, s, i))
  {
    var r, s' := s.after.generation, WorkerStep(c, s, i);
    if s.workers[i].pc.After? && Opens(s.after) {
      WorkingLastArrives(g, c, s, i);
    } else {
      WorkingWorkersStay(c, s, i);
      WorkingProgress(c, s, i);
      assert Working(c, s');
    }
  }

  lemma WorkingBoss<V>(g: BlockGraph.Graph, c: Config<V>, s: State<V>)
    requires Working(c, s) && Enabled(c, s, BossMove) && Fits(g, c.start) && ListsApart(g, c.lists)
    ensures Inv(c, BossStep(c, s))
  {
    var r, s' := s.after.generation, BossStep(c, s);
    if s.boss.PostProcess? && Opens(s.after) {
      AllAsleep(s.workers, InAfter(r));
      RoundComplete(g, c, s);
      NoneAsleep(s'.workers, InBefore(r + 1));
      assert Gathering(c, s');
    } else {
      assert Progress(c, s') == Progress(c, s);
      assert Working(c, s');
    }
  }

  lemma LeavingStep<V>(c: Config<V>, s: State<V>, move: Move<V>)
    requires Leaving(c, s) && Enabled(c, s, move)
    ensures Leaving(c, Take(c, s, move))
  {
  }

  lemma InvStep<V>(g: BlockGraph.Graph, c: Config<V>, s: State<V>, move: Move<V>)
    requires Inv(c, s) && Enabled(c, s, move) && Fits(g, c.start) && ListsApart(g, c.lists)
    ensures Inv(c, Take(c, s, move))
  {
    if Leaving(c, s) {
      LeavingStep(c, s, move);
    } else if Working(c, s) {
      match move {
        case WorkerMove(i) => WorkingWorkerStep(g, c, s, i);
        case BossMove => WorkingBoss(g, c, s);
        case _ =>
      }
    } else {
      match move {
        case WorkerMove(i) => GatheringWorkerStep(c, s, i);
        case BossMove => GatheringBoss(c, s);
        case _ => assert Gathering(c, Take(c, s, move));
      }
    }
  }

  lemma {:induction false} InvExecution<V>(g: BlockGraph.Graph, c: Config<V>, s: State<V>, moves: seq<Move<V>>, end: State<V>)
    requires Inv(c, s) && Execution(c, s, moves, end) && Fits(g, c.start) && ListsApart(g, c.lists)
    ensures Inv(c, end)
    decreases |moves|
  {
    if moves != [] {
      InvStep(g, c, s, moves[0]);
      InvExecution(g, c, Take(c, s, moves[0]), moves[1..], end);
    }
  }
}
