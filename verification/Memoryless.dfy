/** Blocks without memory, for which the calibration of threaded stages makes no difference. */
module Memoryless {
  import opened BlockGraph
  import Sequences
  import ExecMatrix
  import opened BlockSemantics
  import Schedule
  import SystemRun

  /** Calling process() again, on the same inputs, changes nothing any more. */
  ghost predicate Repeatable<V(!new)>(m: Machine<V>, b: Name) {
    forall s: Store<V> :: Run(m, Process(m, b), Run(m, Process(m, b), s)) == Run(m, Process(m, b), s)
  }

  ghost predicate Seen(blocks: seq<Name>, l: Loc) {
    exists b :: b in blocks && Visible(b, l)
  }

  /** Two stores that the given blocks cannot tell apart. */
  ghost predicate Alike<V>(blocks: seq<Name>, s: Store<V>, r: Store<V>) {
    s.Keys == r.Keys && forall l :: l in s && Seen(blocks, l) ==> s[l] == r[l]
  }

  /** Blocks do the same to stores that they cannot tell apart, and keep off what they do not see. */
  lemma {:induction false} SameRun<V>(m: Machine<V>, blocks: seq<Name>, t: seq<Action>, s: Store<V>, r: Store<V>)
    requires Alike(blocks, s, r) && forall a :: a in t ==> a.block in blocks
    ensures Alike(blocks, Run(m, t, s), Run(m, t, r))
    ensures forall l :: l in r && !Seen(blocks, l) ==> Run(m, t, r)[l] == r[l]
  {
    if t != [] {
      var a := t[0];
      assert a in t;
      forall l | l in s && Visible(a.block, l) ensures Seen(blocks, l) {
      }
      assert View(a.block, s) == View(a.block, r);
      SameRun(m, blocks, t[1..], Perform(m, a, s), Perform(m, a, r));
      forall l | l in r && !Seen(blocks, l) ensures Perform(m, a, r)[l] == r[l] {
        assert Writable(a.block, l) ==> Visible(a.block, l);
      }
    }
  }

  /** What a block writes, the blocks before it in a dependency order do not see. */
  lemma LaterBlockUnseen<V>(g: Graph, m: Machine<V>, before: seq<Name>, b: Name, s: Store<V>)
    requires Fits(g, s) && b !in before && NoEdges(g, [b], before)
    ensures Alike(before, s, Run(m, Process(m, b), s))
  {
    OnlyWritesOwn(m, b, Process(m, b), s);
    forall l | l in s && Seen(before, l) ensures !Writable(b, l) {
      var c :| c in before && Visible(c, l);
      if l.Buffer? {
        assert l.wire in g.wires;
        assert l.wire.src == b ==> Edge(g, b, l.wire.dst);
      }
    }
  }

  lemma {:induction false} OnlyWritesOwn<V>(m: Machine<V>, b: Name, t: seq<Action>, s: Store<V>)
    requires forall a :: a in t ==> a.block == b
    ensures forall l :: l in s && !Writable(b, l) ==> Run(m, t, s)[l] == s[l]
  {
    if t != [] {
      assert t[0] in t;
      OnlyWritesOwn(m, b, t[1..], Perform(m, t[0], s));
    }
  }

  /** A pass over blocks without memory can be repeated without effect. */
  lemma {:induction false} PassRepeats<V(!new)>(g: Graph, m: Machine<V>, order: seq<Name>, s: Store<V>)
    requires Fits(g, s) && Topological(g, order) && Distinct(order) && forall b :: b in order ==> Repeatable(m, b)
    ensures Run(m, ProcessAll(m, order), Run(m, ProcessAll(m, order), s)) == Run(m, ProcessAll(m, order), s)
  {
    if order != [] {
      var k := |order| - 1;
      var before, b := order[..k], order[k];
      var p, q := ProcessAll(m, before), Process(m, b);
      assert order == before + [b];
      TopologicalConcat(g, before, [b]);
      ProcessAllAppend(m, before, [b]);
      OneBlock(m, b);
      PassRepeats(g, m, before, s);
      var s1 := Run(m, p, s);
      var s2 := Run(m, q, s1);
      RunAppend(m, p, q, s);
      RunAppend(m, p, q, s2);
      FitsKept(g, m, p, s);
      LaterBlockUnseen(g, m, before, b, s1);
      StaysPut(m, before, p, s1, s2);
      assert ProcessAll(m, order) == p + q;
      assert Repeatable(m, b);
      assert Run(m, q, Run(m, q, s1)) == s2;
    }
  }

  lemma OneBlock<V>(m: Machine<V>, b: Name)
    ensures ProcessAll(m, [b]) == Process(m, b)
  {
    assert ProcessAll(m, [b]) == Process(m, b) + ProcessAll(m, []);
  }

  lemma StaysPut<V>(m: Machine<V>, before: seq<Name>, p: seq<Action>, s1: Store<V>, s2: Store<V>)
    requires p == ProcessAll(m, before) && Alike(before, s1, s2) && Run(m, p, s1) == s1
    ensures Run(m, p, s2) == s2
  {
    forall a | a in p ensures a.block in before {
      ProcessAllMembers(m, before, a);
    }
    SameRun(m, before, p, s1, s2);
    var r := Run(m, p, s2);
    forall l | l in s2 ensures r[l] == s2[l] {
    }
  }

  lemma {:induction false} RoundsRepeat<V>(m: Machine<V>, order: seq<Name>, n: nat, s: Store<V>)
    requires n >= 1
    requires Run(m, ProcessAll(m, order), Run(m, ProcessAll(m, order), s)) == Run(m, ProcessAll(m, order), s)
    ensures Schedule.Rounds(m, order, n, s) == Run(m, ProcessAll(m, order), s)
  {
    if n == 1 {
      assert Schedule.Rounds(m, order, 0, s) == s;
    } else {
      RoundsRepeat(m, order, n - 1, s);
    }
  }

  /** For blocks without memory it does not matter how often a stage runs in one execution. */
  lemma {:induction false} TurnsDoNotMatter<V(!new)>(g: Graph, m: Machine<V>, stages: seq<ExecMatrix.Stage>, turns: seq<nat>, s: Store<V>)
    requires Fits(g, s) && |turns| == |stages| && forall k :: 0 <= k < |turns| ==> turns[k] >= 1
    requires forall k :: 0 <= k < |stages| ==> Topological(g, Sequences.Concat(stages[k])) && Distinct(Sequences.Concat(stages[k]))
    requires forall k, b :: 0 <= k < |stages| && b in Sequences.Concat(stages[k]) ==> Repeatable(m, b)
    ensures Schedule.Turned(m, stages, turns, s) == Schedule.Turned(m, stages, seq(|stages|, k => 1), s)
  {
    if stages != [] {
      var k := |stages| - 1;
      var ones := seq(|stages|, k => 1);
      assert ones[..k] == seq(|stages[..k]|, k => 1);
      TurnsDoNotMatter(g, m, stages[..k], turns[..k], s);
      var s1 := Schedule.Turned(m, stages[..k], turns[..k], s);
      PassRepeats(g, m, Sequences.Concat(stages[k]), s1);
      RoundsRepeat(m, Sequences.Concat(stages[k]), turns[k], s1);
      RoundsRepeat(m, Sequences.Concat(stages[k]), 1, s1);
    }
  }

  /** If no block has memory, n executions are n rounds even while the stages are calibrated. */
  lemma {:induction false} MemorylessIsRounds<V(!new)>(g: Graph, m: Machine<V>, stages: seq<ExecMatrix.Stage>, allowed: bool, order: seq<Name>,
                                                       n: nat, s: Store<V>)
    requires SystemRun.OrderOf(g, stages, order) && Fits(g, s) && forall b :: b in order ==> Repeatable(m, b)
    ensures SystemRun.Executed(m, stages, allowed, n, s) == Schedule.Rounds(m, order, n, s)
  {
    if n > 0 {
      MemorylessIsRounds(g, m, stages, allowed, order, n - 1, s);
      MemorylessExecution(g, m, stages, SystemRun.TurnsAt(stages, allowed, n - 1), order, SystemRun.Executed(m, stages, allowed, n - 1, s));
    }
  }

  lemma MemorylessExecution<V(!new)>(g: Graph, m: Machine<V>, stages: seq<ExecMatrix.Stage>, turns: seq<nat>, order: seq<Name>, s: Store<V>)
    requires SystemRun.OrderOf(g, stages, order) && Fits(g, s) && forall b :: b in order ==> Repeatable(m, b)
    requires |turns| == |stages| && forall k :: 0 <= k < |turns| ==> turns[k] >= 1
    ensures Schedule.Turned(m, stages, turns, s) == Run(m, ProcessAll(m, order), s)
  {
    StagesOrdered(g, stages);
    forall k, b | 0 <= k < |stages| && b in Sequences.Concat(stages[k]) ensures Repeatable(m, b) {
      SystemRun.InOrder(stages, k, b);
    }
    TurnsDoNotMatter(g, m, stages, turns, s);
    Schedule.OneTurnEach(m, stages, seq(|stages|, k => 1), s);
    Schedule.SafeScheduleTopological(g, stages);
    TopologicalOrdersAgree(g, m, ExecMatrix.Order(stages), order, s);
  }

  lemma StagesOrdered(g: Graph, stages: seq<ExecMatrix.Stage>)
    requires ExecMatrix.ScheduleSafe(g, stages) && Distinct(ExecMatrix.Order(stages))
    ensures forall k :: 0 <= k < |stages| ==> Topological(g, Sequences.Concat(stages[k])) && Distinct(Sequences.Concat(stages[k]))
  {
    Schedule.SafeStagesRunnable(g, stages);
    forall k | 0 <= k < |stages| ensures Topological(g, Sequences.Concat(stages[k])) {
      Schedule.IndependentPathsTopological(g, stages[k]);
    }
  }
}
