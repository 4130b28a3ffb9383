/** System::initialize as a whole, and what running the schedule it builds computes. */
module Schedule {
  import opened BlockGraph
  import opened Sequences
  import opened ExecMatrix
  import SystemInit
  import opened BlockSemantics

  // ---- a safe schedule is a topological order ----

  lemma {:induction false} IndependentPathsTopological(g: Graph, stage: Stage)
    requires PathsIndependent(g, stage)
    requires forall p :: 0 <= p < |stage| ==> Topological(g, stage[p])
    ensures Topological(g, Concat(stage))
  {
    if stage != [] {
      var rest := stage[1..];
      forall p, q | 0 <= p < q < |rest| ensures Independent(g, rest[p], rest[q]) {
        assert Independent(g, stage[p + 1], stage[q + 1]);
      }
      IndependentPathsTopological(g, rest);
      forall u, v | u in Concat(rest) && v in stage[0] ensures !Edge(g, u, v) {
        ConcatMembers(rest, u);
        var p :| 0 <= p < |rest| && u in rest[p];
        assert Independent(g, stage[0], stage[p + 1]);
      }
      TopologicalConcat(g, stage[0], Concat(rest));
    }
  }

  lemma {:induction false} SafeScheduleTopological(g: Graph, stages: seq<Stage>)
    requires ScheduleSafe(g, stages)
    ensures Topological(g, Order(stages))
  {
    if stages != [] {
      var rest := stages[1..];
      SafeTail(g, stages);
      SafeScheduleTopological(g, rest);
      IndependentPathsTopological(g, stages[0]);
      OrderHead(stages);
      forall u, v | u in Order(rest) && v in Concat(stages[0]) ensures !Edge(g, u, v) {
        OrderMembers(rest, u);
        var t :| 0 <= t < |rest| && u in Concat(rest[t]);
        assert NoEdges(g, Concat(stages[t + 1]), Concat(stages[0]));
      }
      TopologicalConcat(g, Concat(stages[0]), Order(rest));
    }
  }

  lemma SafeTail(g: Graph, stages: seq<Stage>)
    requires ScheduleSafe(g, stages) && stages != []
    ensures ScheduleSafe(g, stages[1..])
  {
    var rest := stages[1..];
    assert forall s :: 0 <= s < |rest| ==> rest[s] == stages[s + 1];
  }

  lemma {:induction false} OrderMembers(stages: seq<Stage>, b: Name)
    requires b in Order(stages)
    ensures exists s :: 0 <= s < |stages| && b in Concat(stages[s])
  {
    OrderHead(stages);
    if b in Concat(stages[0]) {
    } else {
      OrderMembers(stages[1..], b);
      var s :| 0 <= s < |stages[1..]| && b in Concat(stages[1..][s]);
      assert stages[1..][s] == stages[s + 1];
    }
  }

  // ---- a safe schedule takes every connection forward ----

  /** Where a block stands in the execution matrix. */
  datatype Place = Place(stage: nat, path: nat, pos: nat)

  predicate At(stages: seq<Stage>, x: Place, b: Name) {
    && x.stage < |stages| && x.path < |stages[x.stage]| && x.pos < |stages[x.stage][x.path]|
    && stages[x.stage][x.path][x.pos] == b
  }

  /** On an earlier stage, or earlier on the same path. */
  predicate Before(x: Place, y: Place) {
    x.stage < y.stage || (x.stage == y.stage && x.path == y.path && x.pos < y.pos)
  }

  /** No connection has its destination at the place of its source or before, or on another path of the same stage. */
  ghost predicate RunsForward(g: Graph, stages: seq<Stage>) {
    forall w, x, y :: w in g.wires && At(stages, x, w.src) && At(stages, y, w.dst) ==> Before(x, y)
  }

  lemma AtConcat(stages: seq<Stage>, x: Place, b: Name)
    requires At(stages, x, b)
    ensures b in Concat(stages[x.stage])
  {
    ConcatMembers(stages[x.stage], b);
  }

  lemma PlaceInStage(stages: seq<Stage>, s: nat, b: Name) returns (x: Place)
    requires s < |stages| && b in Concat(stages[s])
    ensures At(stages, x, b) && x.stage == s
  {
    ConcatMembers(stages[s], b);
    var p :| 0 <= p < |stages[s]| && b in stages[s][p];
    var k :| 0 <= k < |stages[s][p]| && stages[s][p][k] == b;
    x := Place(s, p, k);
  }

  lemma EdgeGoesForward(g: Graph, stages: seq<Stage>, x: Place, y: Place, u: Name, v: Name)
    requires RunsForward(g, stages) && At(stages, x, u) && At(stages, y, v) && Edge(g, u, v)
    ensures Before(x, y)
  {
    var w := EdgeHasWire(g, u, v);
  }

  lemma SafeRunsForward(g: Graph, stages: seq<Stage>)
    requires ScheduleSafe(g, stages)
    ensures RunsForward(g, stages)
  {
    forall w, x, y | w in g.wires && At(stages, x, w.src) && At(stages, y, w.dst) ensures Before(x, y) {
      assert Edge(g, w.src, w.dst);
      AtConcat(stages, x, w.src);
      AtConcat(stages, y, w.dst);
      if x.stage == y.stage {
        assert x.path < y.path ==> Independent(g, stages[x.stage][x.path], stages[x.stage][y.path]);
        assert y.path < x.path ==> Independent(g, stages[x.stage][y.path], stages[x.stage][x.path]);
        assert Topological(g, stages[x.stage][x.path]);
      } else {
        assert y.stage < x.stage ==> NoEdges(g, Concat(stages[x.stage]), Concat(stages[y.stage]));
      }
    }
  }

  lemma ForwardIsSafe(g: Graph, stages: seq<Stage>)
    requires RunsForward(g, stages)
    ensures ScheduleSafe(g, stages)
  {
    forall s, p, i, j | 0 <= s < |stages| && 0 <= p < |stages[s]| && 0 <= i <= j < |stages[s][p]|
      ensures !Edge(g, stages[s][p][j], stages[s][p][i])
    {
      if Edge(g, stages[s][p][j], stages[s][p][i]) {
        EdgeGoesForward(g, stages, Place(s, p, j), Place(s, p, i), stages[s][p][j], stages[s][p][i]);
        assert false;
      }
    }
    forall s | 0 <= s < |stages| ensures PathsIndependent(g, stages[s]) {
      ForwardIsIndependent(g, stages, s);
    }
    forall s, t, u, v | 0 <= s < t < |stages| && u in Concat(stages[t]) && v in Concat(stages[s]) ensures !Edge(g, u, v) {
      var x := PlaceInStage(stages, t, u);
      var y := PlaceInStage(stages, s, v);
      if Edge(g, u, v) {
        EdgeGoesForward(g, stages, x, y, u, v);
        assert false;
      }
    }
  }

  lemma ForwardIsIndependent(g: Graph, stages: seq<Stage>, s: nat)
    requires RunsForward(g, stages) && s < |stages|
    ensures PathsIndependent(g, stages[s])
  {
    forall p, q, i, j | 0 <= p < |stages[s]| && 0 <= q < |stages[s]| && p != q && 0 <= i < |stages[s][p]| && 0 <= j < |stages[s][q]|
      ensures !Edge(g, stages[s][p][i], stages[s][q][j])
    {
      if Edge(g, stages[s][p][i], stages[s][q][j]) {
        EdgeGoesForward(g, stages, Place(s, p, i), Place(s, q, j), stages[s][p][i], stages[s][q][j]);
        assert false;
      }
    }
  }

  /** A schedule is safe exactly if every connection goes to a later stage or to a later place of the same path. */
  lemma SafeMeansForward(g: Graph, stages: seq<Stage>)
    ensures ScheduleSafe(g, stages) <==> RunsForward(g, stages)
  {
    if ScheduleSafe(g, stages) {
      SafeRunsForward(g, stages);
    }
    if RunsForward(g, stages) {
      ForwardIsSafe(g, stages);
    }
  }

  // ---- initialize ----

  /** What System::initialize leaves in the execution matrix. */
  ghost predicate Initialized(g: Graph, stages: seq<Stage>) {
    && Distinct(Order(stages))
    && (forall b :: b in Order(stages) <==> SystemInit.Wanted(g, b))
    && (forall s :: 0 <= s < |stages| - 1 ==> Separated(g, stages, s))
    && (forall s :: 0 <= s < |stages| ==> stages[s] != [] && NonEmptyPaths(stages[s]))
    && (PortsUsedOnce(g) ==> (ScheduleSafe(g, stages) <==> Acyclic(g)))
    && (PortsUsedOnce(g) && Acyclic(g) ==> FusedExactly(g, Concat(stages)))
  }

  /** Combining and parallelizing the placed blocks gives a schedule that is safe iff there is no cycle. */
  lemma ScheduleCorrect(g: Graph, order: seq<Name>, paths: seq<Path>, stages: seq<Stage>)
    requires Valid(g) && Distinct(order) && Covers(g, order) && (Topological(g, order) <==> Acyclic(g))
    requires Chains(g, paths) && FusedUpTo(g, paths, |paths|)
    requires multiset(Concat(paths)) == multiset(order)
    requires WellOrdered(g, order) ==> WellOrdered(g, Concat(paths))
    requires Concat(stages) == paths
    requires forall s :: 0 <= s < |stages| ==> EndsMissStarts(g, stages[s])
    ensures PortsUsedOnce(g) ==> (ScheduleSafe(g, stages) <==> Acyclic(g))
    ensures PortsUsedOnce(g) && Acyclic(g) ==> FusedExactly(g, paths)
  {
    if PortsUsedOnce(g) && Acyclic(g) {
      EndTestsGiveSafety(g, stages);
      PathsFollowLoneConnections(g, paths);
    }
    if ScheduleSafe(g, stages) {
      SafeScheduleTopological(g, stages);
      SameMembers(order, Order(stages));
      TopologicalImpliesAcyclic(g, Order(stages));
    }
  }

  lemma PathsOfStages(g: Graph, stages: seq<Stage>)
    requires Chains(g, Concat(stages))
    ensures forall s :: 0 <= s < |stages| ==> NonEmptyPaths(stages[s])
  {
    forall s, p | 0 <= s < |stages| && 0 <= p < |stages[s]| ensures stages[s][p] != [] {
      StageChains(g, stages, s);
      assert Chain(g, stages[s][p]);
    }
  }

  /** System::initialize without the signal attributes: place, combine, parallelize. */
  method Initialize(sys: SystemInit.System)
    requires Valid(sys.execM.graph) && sys.execM.stages == []
    requires exists b :: b in sys.execM.graph.blocks && sys.execM.graph.blocks[b].source
    modifies sys.execM
    ensures sys.execM.stages != [] && Initialized(sys.execM.graph, sys.execM.stages)
  {
    ghost var order := sys.PlaceAll();
    assert order != [] by {
      var b :| b in sys.execM.graph.blocks && sys.execM.graph.blocks[b].source;
      assert SystemInit.Wanted(sys.execM.graph, b);
    }
    CombineAndParallelize(sys.execM, order);
  }

  /** What follows once the blocks are placed. */
  method CombineAndParallelize(execM: ExecutionMatrix, ghost order: seq<Name>)
    requires Valid(execM.graph) && execM.stages == Singles(order) && order != [] && Distinct(order) && Covers(execM.graph, order)
    requires forall b :: b in order <==> SystemInit.Wanted(execM.graph, b)
    requires Topological(execM.graph, order) <==> Acyclic(execM.graph)
    modifies execM
    ensures execM.stages != [] && Initialized(execM.graph, execM.stages)
  {
    ghost var g := execM.graph;
    SinglesOrder(order);
    ghost var paths := execM.CombineStages();
    ConcatOnePathEach(paths);
    SameMembers(order, Concat(paths));
    DistinctFromMultiset(order, Concat(paths));
    execM.Parallelize(paths);
    ScheduleCorrect(g, order, paths, execM.stages);
    PathsOfStages(g, execM.stages);
    SeparatedByWires(g, execM.stages);
    assert execM.stages != [] by {
      assert Concat<Path>([]) == [];
    }
  }

  // ---- running the schedule ----

  /** One list of actions per path. */
  function StageLists<V>(m: Machine<V>, stage: Stage): seq<seq<Action>> {
    seq(|stage|, p requires 0 <= p < |stage| => ProcessAll(m, stage[p]))
  }

  function Lengths<T>(lists: seq<seq<T>>): seq<nat> {
    seq(|lists|, i requires 0 <= i < |lists| => |lists[i]|)
  }

  /** t runs every path of the stage once, in any interleaving. */
  ghost predicate StageRun<V>(m: Machine<V>, stage: Stage, t: seq<Action>) {
    Interleaves(t, StageLists(m, stage), Lengths(StageLists(m, stage)))
  }

  /** There is always some interleaving, for instance one path after the other. */
  lemma StageRunExists<V>(m: Machine<V>, stage: Stage)
    ensures exists t :: StageRun(m, stage, t)
  {
    var lists := StageLists(m, stage);
    var t: seq<Action>, done: seq<nat> := [], seq(|lists|, i => 0);
    for i := 0 to |lists|
      invariant |done| == |lists| && Interleaves(t, lists, done)
      invariant forall k :: 0 <= k < |lists| ==> done[k] == if k < i then |lists[k]| else 0
    {
      while done[i] < |lists[i]|
        invariant |done| == |lists| && Interleaves(t, lists, done) && done[i] <= |lists[i]|
        invariant forall k :: 0 <= k < |lists| && k != i ==> done[k] == if k < i then |lists[k]| else 0
      {
        InterleavesMore(t, lists, done, i);
        t, done := t + [lists[i][done[i]]], done[i := done[i] + 1];
      }
    }
    assert done == Lengths(lists);
    assert StageRun(m, stage, t);
  }

  /** The store after n sequential passes over a list of blocks. */
  function Rounds<V>(m: Machine<V>, order: seq<Name>, n: nat, s: Store<V>): (r: Store<V>)
    ensures r.Keys == s.Keys
  {
    if n == 0 then s else Run(m, ProcessAll(m, order), Rounds(m, order, n - 1, s))
  }

  lemma {:induction false} ProcessAllConcat<V>(m: Machine<V>, stage: Stage)
    ensures Concat(StageLists(m, stage)) == ProcessAll(m, Concat(stage))
  {
    if stage != [] {
      ProcessAllConcat(m, stage[1..]);
      assert StageLists(m, stage)[1..] == StageLists(m, stage[1..]);
      ProcessAllAppend(m, stage[0], Concat(stage[1..]));
    }
  }

  lemma StageListsApart<V>(g: Graph, m: Machine<V>, stage: Stage)
    requires PathsIndependent(g, stage) && Distinct(Concat(stage))
    ensures ListsApart(g, StageLists(m, stage))
  {
    var lists := StageLists(m, stage);
    forall p, q | 0 <= p < q < |lists| ensures ActionsApart(g, lists[p], lists[q]) {
      assert Independent(g, stage[p], stage[q]);
      DistinctParts(stage, p, q);
      ApartLists(g, m, stage[p], stage[q]);
    }
  }

  /** However the paths of a stage are interleaved, the stage does what running them in turn does. */
  lemma StageRunIsSequential<V>(g: Graph, m: Machine<V>, stage: Stage, t: seq<Action>, s: Store<V>)
    requires Fits(g, s) && PathsIndependent(g, stage) && Distinct(Concat(stage)) && StageRun(m, stage, t)
    ensures Run(m, t, s) == Run(m, ProcessAll(m, Concat(stage)), s)
  {
    var lists := StageLists(m, stage);
    StageListsApart(g, m, stage);
    FullyInterleaved(g, m, t, lists, Lengths(lists), s);
    ProcessAllConcat(m, stage);
  }

  /** Several runs of one stage, each interleaved in its own way. */
  ghost predicate StageRuns<V>(m: Machine<V>, stage: Stage, runs: seq<seq<Action>>) {
    forall k :: 0 <= k < |runs| ==> StageRun(m, stage, runs[k])
  }

  /** A pass that runs stage s turns[s] times, the stages in order. */
  ghost predicate PassRun<V>(m: Machine<V>, stages: seq<Stage>, turns: seq<nat>, pass: seq<seq<seq<Action>>>) {
    |pass| == |turns| == |stages| && forall s :: 0 <= s < |stages| ==> |pass[s]| == turns[s] && StageRuns(m, stages[s], pass[s])
  }

  /** Each stage may be run by any interleaving, whatever the others do. */
  lemma PassRunExists<V>(m: Machine<V>, stages: seq<Stage>, turns: seq<nat>, j: nat, t: seq<Action>) returns (pass: seq<seq<seq<Action>>>)
    requires |turns| == |stages| && j < |stages| && StageRun(m, stages[j], t)
    ensures PassRun(m, stages, turns, pass) && pass[j] == seq(turns[j], _ => t)
  {
    pass := [];
    for s := 0 to |stages|
      invariant |pass| == s && (s > j ==> pass[j] == seq(turns[j], _ => t))
      invariant forall i :: 0 <= i < s ==> |pass[i]| == turns[i] && StageRuns(m, stages[i], pass[i])
    {
      StageRunExists(m, stages[s]);
      var some :| StageRun(m, stages[s], some);
      var run := if s == j then t else some;
      pass := pass + [seq(turns[s], _ => run)];
    }
  }

  /** The store after a sequential pass that runs stage s turns[s] times. */
  function Turned<V>(m: Machine<V>, stages: seq<Stage>, turns: seq<nat>, s: Store<V>): (r: Store<V>)
    requires |turns| == |stages|
    ensures r.Keys == s.Keys
  {
    if stages == [] then s else
      var k := |stages| - 1;
      Rounds(m, Concat(stages[k]), turns[k], Turned(m, stages[..k], turns[..k], s))
  }

  /** Stages whose paths may run at the same time. */
  ghost predicate StagesRunnable(g: Graph, stages: seq<Stage>) {
    forall s :: 0 <= s < |stages| ==> PathsIndependent(g, stages[s]) && Distinct(Concat(stages[s]))
  }

  lemma SafeStagesRunnable(g: Graph, stages: seq<Stage>)
    requires ScheduleSafe(g, stages) && Distinct(Order(stages))
    ensures StagesRunnable(g, stages)
  {
    forall s | 0 <= s < |stages| ensures Distinct(Concat(stages[s])) {
      OrderSplit(stages, s);
      DistinctConcat(Order(stages[..s]) + Concat(stages[s]), Order(stages[s + 1..]));
      DistinctConcat(Order(stages[..s]), Concat(stages[s]));
    }
  }

  lemma {:induction false} StageRunsAreSequential<V>(g: Graph, m: Machine<V>, stage: Stage, runs: seq<seq<Action>>, s: Store<V>)
    requires Fits(g, s) && PathsIndependent(g, stage) && Distinct(Concat(stage)) && StageRuns(m, stage, runs)
    ensures Run(m, Concat(runs), s) == Rounds(m, Concat(stage), |runs|, s)
  {
    if runs != [] {
      var k := |runs| - 1;
      StageRunsAreSequential(g, m, stage, runs[..k], s);
      LastPart(runs);
      RunAppend(m, Concat(runs[..k]), runs[k], s);
      StageRunIsSequential(g, m, stage, runs[k], Rounds(m, Concat(stage), k, s));
    }
  }

  /** However its runs are interleaved, a pass does what running the paths of its stages in turn does, as often. */
  lemma {:induction false} PassIsSequential<V>(g: Graph, m: Machine<V>, stages: seq<Stage>, turns: seq<nat>,
                                               pass: seq<seq<seq<Action>>>, s: Store<V>)
    requires Fits(g, s) && StagesRunnable(g, stages) && PassRun(m, stages, turns, pass)
    ensures Run(m, Concat(Concat(pass)), s) == Turned(m, stages, turns, s)
  {
    if stages != [] {
      var k := |stages| - 1;
      PassIsSequential(g, m, stages[..k], turns[..k], pass[..k], s);
      LastPass(pass);
      RunAppend(m, Concat(Concat(pass[..k])), Concat(pass[k]), s);
      StageRunsAreSequential(g, m, stages[k], pass[k], Turned(m, stages[..k], turns[..k], s));
    }
  }

  lemma LastPart<T>(parts: seq<seq<T>>)
    requires parts != []
    ensures Concat(parts) == Concat(parts[..|parts| - 1]) + parts[|parts| - 1]
  {
    var k := |parts| - 1;
    assert parts == parts[..k] + [parts[k]];
    ConcatAppend(parts[..k], [parts[k]]);
    ConcatOne(parts[k]);
  }

  lemma LastPass<T>(passes: seq<seq<seq<T>>>)
    requires passes != []
    ensures Concat(Concat(passes)) == Concat(Concat(passes[..|passes| - 1])) + Concat(passes[|passes| - 1])
  {
    LastPart(passes);
    ConcatAppend(Concat(passes[..|passes| - 1]), passes[|passes| - 1]);
  }

  /** A pass that runs every stage once is a pass over the blocks in flattened order. */
  lemma {:induction false} OneTurnEach<V>(m: Machine<V>, stages: seq<Stage>, turns: seq<nat>, s: Store<V>)
    requires |turns| == |stages| && forall k :: 0 <= k < |turns| ==> turns[k] == 1
    ensures Turned(m, stages, turns, s) == Run(m, ProcessAll(m, Order(stages)), s)
  {
    if stages != [] {
      var k := |stages| - 1;
      OneTurnEach(m, stages[..k], turns[..k], s);
      LastPass(stages);
      ProcessAllAppend(m, Order(stages[..k]), Concat(stages[k]));
      RunAppend(m, ProcessAll(m, Order(stages[..k])), ProcessAll(m, Concat(stages[k])), s);
      var s1 := Turned(m, stages[..k], turns[..k], s);
      assert Rounds(m, Concat(stages[k]), 1, s1) == Run(m, ProcessAll(m, Concat(stages[k])), Rounds(m, Concat(stages[k]), 0, s1));
    }
  }

  /** combine_stages preserves meaning: a pass over the fused paths does what a pass over the placed blocks does. */
  lemma CombiningKeepsMeaning<V>(g: Graph, m: Machine<V>, order: seq<Name>, paths: seq<Path>, s: Store<V>)
    requires Fits(g, s) && WellOrdered(g, order) && WellOrdered(g, Concat(paths)) && multiset(Concat(paths)) == multiset(order)
    ensures Run(m, ProcessAll(m, Concat(paths)), s) == Run(m, ProcessAll(m, order), s)
  {
    SameMembers(order, Concat(paths));
    TopologicalOrdersAgree(g, m, Concat(paths), order, s);
  }
}
