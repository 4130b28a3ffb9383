/** The first part of System::initialize: depth-first placement of the blocks. */
module SystemInit {
  import opened BlockGraph
  import opened ExecMatrix

  /** Every successor of a finished block is finished later in the list. */
  ghost predicate Sorted(g: Graph, fin: seq<Name>) {
    forall i, v :: 0 <= i < |fin| && Edge(g, fin[i], v) ==> v in fin[i + 1..]
  }

  /** Every successor of a finished block has been placed. */
  ghost predicate Closed(g: Graph, fin: seq<Name>, placed: seq<Name>) {
    forall u, v :: u in fin && Edge(g, u, v) ==> v in placed
  }

  /** The placed blocks as a stack of blocks still being visited, followed by the finished ones. */
  ghost predicate Visiting(g: Graph, stages: seq<Stage>, stack: seq<Name>, fin: seq<Name>) {
    && stages == Singles(stack + fin)
    && Distinct(stack + fin)
    && (forall b :: b in stack + fin ==> b in g.blocks)
    && Walk(g, stack)
    && Closed(g, fin, stack + fin)
    && (Acyclic(g) ==> Sorted(g, fin))
  }

  /** A block is scheduled iff it is a Source or some block is connected to it. */
  ghost predicate Wanted(g: Graph, b: Name) {
    b in g.blocks && (g.blocks[b].source || exists u :: Edge(g, u, b))
  }

  /** An edge back into the stack closes a cycle. */
  lemma BackEdgeClosesCycle(g: Graph, stack: seq<Name>, v: Name)
    requires stack != [] && Walk(g, stack) && v in stack
    requires Edge(g, stack[|stack| - 1], v)
    ensures !Acyclic(g)
  {
    var i :| 0 <= i < |stack| && stack[i] == v;
    var walk := stack[i..] + [v];
    forall k | 0 <= k < |walk| - 1 ensures Edge(g, walk[k], walk[k + 1]) {
      if k < |walk| - 2 {
        assert walk[k] == stack[i + k] && walk[k + 1] == stack[i + k + 1];
      } else {
        assert walk[k] == stack[|stack| - 1];
      }
    }
    assert Cycle(g, walk);
  }

  /** When the visit of b ends, b becomes the first finished block. */
  lemma Finish(g: Graph, stages: seq<Stage>, stack: seq<Name>, b: Name, fin: seq<Name>)
    requires Visiting(g, stages, stack + [b], fin)
    requires forall v :: Edge(g, b, v) ==> v in stack + [b] + fin && (Acyclic(g) ==> v in fin)
    ensures Visiting(g, stages, stack, [b] + fin)
  {
    assert stack + ([b] + fin) == stack + [b] + fin;
    forall i | 0 <= i < |stack| - 1 ensures Edge(g, stack[i], stack[i + 1]) {
      assert (stack + [b])[i] == stack[i] && (stack + [b])[i + 1] == stack[i + 1];
    }
    if Acyclic(g) {
      forall i, v | 0 <= i < |fin| + 1 && Edge(g, ([b] + fin)[i], v) ensures v in ([b] + fin)[i + 1..] {
        if i == 0 {
          assert ([b] + fin)[1..] == fin;
        } else {
          assert ([b] + fin)[i + 1..] == fin[i..];
        }
      }
    }
  }

  /** A newly found successor is pushed right behind the block it was found from. */
  lemma Push(g: Graph, stages: seq<Stage>, stack: seq<Name>, fin: seq<Name>, v: Name, stages': seq<Stage>)
    requires Visiting(g, stages, stack, fin)
    requires v in g.blocks && v !in stack + fin
    requires stack != [] ==> Edge(g, stack[|stack| - 1], v)
    requires stages' == stages[..|stack|] + [[[v]]] + stages[|stack|..]
    ensures Visiting(g, stages', stack + [v], fin)
  {
    assert stages' == Singles(stack + [v] + fin);
    forall b | b in stack + [v] + fin ensures b in g.blocks {
      assert b in stack + fin || b == v;
    }
    var old' := stack + fin;
    var now := stack + [v] + fin;
    forall i, j | 0 <= i < j < |now| ensures now[i] != now[j] {
      var i' := if i < |stack| then i else i - 1;
      var j' := if j < |stack| then j else j - 1;
      if i != |stack| && j != |stack| {
        assert now[i] == old'[i'] && now[j] == old'[j'];
      } else if i == |stack| {
        assert now[j] == old'[j'];
      } else {
        assert now[i] == old'[i'];
      }
    }
    forall u, w | u in fin && Edge(g, u, w) ensures w in now {
      assert w in old';
    }
  }

  lemma StageOf(order: seq<Name>, b: Name, s: nat)
    requires s < |order|
    ensures StageHolds(Singles(order)[s], b) <==> order[s] == b
  {
    if order[s] == b {
      assert b in Singles(order)[s][0];
    }
  }

  lemma Placed(order: seq<Name>, b: Name)
    ensures b in order <==> exists s :: 0 <= s < |Singles(order)| && StageHolds(Singles(order)[s], b)
  {
    forall s | 0 <= s < |order| ensures StageHolds(Singles(order)[s], b) <==> order[s] == b {
      StageOf(order, b, s);
    }
    if b in order {
      var s :| 0 <= s < |order| && order[s] == b;
      assert StageHolds(Singles(order)[s], b);
    }
  }

  /** place_block finds the top of the stack at its own stage and nowhere before. */
  lemma TopStage(order: seq<Name>, top: nat)
    requires Distinct(order) && top < |order|
    ensures StageHolds(Singles(order)[top], order[top])
    ensures forall t :: 0 <= t < top ==> !StageHolds(Singles(order)[t], order[top])
  {
    forall t | 0 <= t <= top ensures StageHolds(Singles(order)[t], order[top]) <==> t == top {
      StageOf(order, order[top], t);
    }
  }

  /** The finished list grew at its front, by blocks that something is connected to. */
  ghost predicate Grown(g: Graph, fin: seq<Name>, fin': seq<Name>) {
    && |fin| <= |fin'| && fin'[|fin'| - |fin|..] == fin
    && forall b :: b in fin' && b !in fin ==> exists u :: Edge(g, u, b)
  }

  lemma GrownKeeps(g: Graph, a: seq<Name>, b: seq<Name>)
    requires Grown(g, a, b)
    ensures forall x :: x in a ==> x in b
  {
    assert forall x :: x in a ==> x in b[|b| - |a|..];
  }

  lemma GrownTransitive(g: Graph, a: seq<Name>, b: seq<Name>, c: seq<Name>)
    requires Grown(g, a, b) && Grown(g, b, c)
    ensures Grown(g, a, c)
    ensures forall x :: x in b ==> x in c
  {
    assert c[|c| - |a|..] == b[|b| - |a|..];
    GrownKeeps(g, b, c);
  }

  lemma GrownBy(g: Graph, u: Name, next: Name, a: seq<Name>, b: seq<Name>)
    requires Grown(g, a, b) && Edge(g, u, next)
    ensures Grown(g, a, [next] + b)
  {
    assert ([next] + b)[|b| + 1 - |a|..] == b[|b| - |a|..];
  }

  /** What is left to place. */
  ghost function Unplaced(g: Graph, order: seq<Name>): nat {
    |g.blocks.Keys - set b | b in order|
  }

  lemma UnplacedShrinks(g: Graph, a: seq<Name>, b: seq<Name>)
    requires forall x :: x in a ==> x in b
    ensures Unplaced(g, b) <= Unplaced(g, a)
    ensures (exists x :: x in b && x !in a && x in g.blocks) ==> Unplaced(g, b) < Unplaced(g, a)
  {
    var small := g.blocks.Keys - set x | x in b;
    var large := g.blocks.Keys - set x | x in a;
    assert small <= large && large == small + (large - small);
    if x :| x in b && x !in a && x in g.blocks {
      assert x in large - small;
    }
  }

  class System {
    const execM: ExecutionMatrix

    constructor (m: ExecutionMatrix)
      ensures execM == m
    {
      execM := m;
    }

    /** The action that linearize applies to every connected block. */
    method PlaceBlock(curr: Name, next: Name, ghost stack: seq<Name>, ghost fin: seq<Name>) returns (ghost fin': seq<Name>)
      requires Valid(execM.graph) && Visiting(execM.graph, execM.stages, stack, fin)
      requires stack != [] && stack[|stack| - 1] == curr
      requires Edge(execM.graph, curr, next) && next in execM.graph.blocks
      modifies execM`stages
      ensures Visiting(execM.graph, execM.stages, stack, fin')
      ensures Grown(execM.graph, fin, fin')
      ensures next in stack + fin' && (Acyclic(execM.graph) ==> next in fin')
      decreases Unplaced(execM.graph, stack + fin), 0
    {
      fin' := fin;
      Placed(stack + fin, next);
      var placed := execM.BlockIsPlaced(next);
      if !placed {
        ghost var before := execM.stages;
        assert curr == (stack + fin)[|stack| - 1];
        TopStage(stack + fin, |stack| - 1);
        execM.PlaceBlock(next, curr);
        assert execM.stages == before[..|stack|] + [[[next]]] + before[|stack|..] by {
          assert StageHolds(before[|stack| - 1], curr);
        }
        Push(execM.graph, before, stack, fin, next, execM.stages);
        UnplacedShrinks(execM.graph, stack + fin, stack + [next] + fin);
        ghost var fin1 := Linearize(next, stack + [next], fin);
        Finish(execM.graph, execM.stages, stack, next, fin1);
        GrownBy(execM.graph, curr, next, fin, fin1);
        fin' := [next] + fin1;
      } else if next in stack {
        BackEdgeClosesCycle(execM.graph, stack, next);
      }
    }

    /** Visits everything reachable from a block that has just been placed. */
    method Linearize(start: Name, ghost stack: seq<Name>, ghost fin: seq<Name>) returns (ghost fin': seq<Name>)
      requires Valid(execM.graph) && Visiting(execM.graph, execM.stages, stack, fin)
      requires stack != [] && stack[|stack| - 1] == start
      modifies execM`stages
      ensures Visiting(execM.graph, execM.stages, stack, fin')
      ensures Grown(execM.graph, fin, fin')
      ensures forall v :: Edge(execM.graph, start, v) ==> v in stack + fin' && (Acyclic(execM.graph) ==> v in fin')
      decreases Unplaced(execM.graph, stack + fin), 1
    {
      fin' := fin;
      var todo := {};
      assert start in stack + fin;
      if execM.graph.blocks[start].source {
        todo := Connections(execM.graph, start);
      }
      OnlySourcesConnect(execM.graph, start);
      while todo != {}
        invariant todo <= Connections(execM.graph, start)
        invariant Visiting(execM.graph, execM.stages, stack, fin')
        invariant Grown(execM.graph, fin, fin')
        invariant forall v :: Edge(execM.graph, start, v) && v !in todo
                    ==> v in stack + fin' && (Acyclic(execM.graph) ==> v in fin')
        invariant Unplaced(execM.graph, stack + fin') <= Unplaced(execM.graph, stack + fin)
        decreases todo
      {
        var next :| next in todo;
        ghost var w := EdgeHasWire(execM.graph, start, next);
        assert WireFits(execM.graph, w);
        ghost var fin1 := PlaceBlock(start, next, stack, fin');
        GrownTransitive(execM.graph, fin, fin', fin1);
        UnplacedShrinks(execM.graph, stack + fin', stack + fin1);
        fin' := fin1;
        todo := todo - {next};
      }
    }

    /** The loop body of initialize: a start block that is not placed yet becomes the first stage and is linearized. */
    method PlaceStart(start: Name, ghost order: seq<Name>) returns (ghost order': seq<Name>)
      requires Valid(execM.graph) && Visiting(execM.graph, execM.stages, [], order)
      requires start in execM.graph.blocks && execM.graph.blocks[start].source
      requires forall b :: b in order ==> Wanted(execM.graph, b)
      modifies execM`stages
      ensures Visiting(execM.graph, execM.stages, [], order')
      ensures start in order' && (forall b :: b in order ==> b in order') && forall b :: b in order' ==> Wanted(execM.graph, b)
    {
      order' := order;
      assert [] + order == order;
      Placed(order, start);
      var placed := execM.BlockIsPlaced(start);
      if !placed {
        ghost var before := execM.stages;
        execM.AddBlock(start);
        Push(execM.graph, before, [], order, start, execM.stages);
        assert [] + [start] == [start];
        ghost var fin := Linearize(start, [start], order);
        Finish(execM.graph, execM.stages, [], start, fin);
        GrownKeeps(execM.graph, order, fin);
        order' := [start] + fin;
      }
    }

    /** Every Source is a start block; they are taken in an arbitrary order. */
    method PlaceAll() returns (ghost order: seq<Name>)
      requires Valid(execM.graph) && execM.stages == []
      modifies execM`stages
      ensures execM.stages == Singles(order) && Distinct(order) && Covers(execM.graph, order)
      ensures forall b :: b in order <==> Wanted(execM.graph, b)
      ensures Topological(execM.graph, order) <==> Acyclic(execM.graph)
    {
      order := [];
      var startBlocks := set b | b in execM.graph.blocks && execM.graph.blocks[b].source;
      while startBlocks != {}
        invariant forall b :: b in startBlocks ==> b in execM.graph.blocks && execM.graph.blocks[b].source
        invariant Visiting(execM.graph, execM.stages, [], order)
        invariant forall b :: b in execM.graph.blocks && execM.graph.blocks[b].source ==> b in startBlocks || b in order
        invariant forall b :: b in order ==> Wanted(execM.graph, b)
        decreases startBlocks
      {
        var start :| start in startBlocks;
        order := PlaceStart(start, order);
        startBlocks := startBlocks - {start};
      }
      assert [] + order == order;
      AllPlaced(execM.graph, order);
    }
  }

  /** Once every Source is finished, the finished list holds the whole graph, sorted if there is no cycle. */
  lemma AllPlaced(g: Graph, order: seq<Name>)
    requires Valid(g) && Distinct(order) && Closed(g, order, order) && (Acyclic(g) ==> Sorted(g, order))
    requires forall b :: b in g.blocks && g.blocks[b].source ==> b in order
    requires forall b :: b in order ==> Wanted(g, b)
    ensures Covers(g, order)
    ensures forall b :: b in order <==> Wanted(g, b)
    ensures Topological(g, order) <==> Acyclic(g)
  {
    forall w | w in g.wires ensures w.src in order && w.dst in order {
      assert WireFits(g, w);
      assert w.dst in Connections(g, w.src);
    }
    forall b | Wanted(g, b) ensures b in order {
      if u :| Edge(g, u, b) {
        var w := EdgeHasWire(g, u, b);
      }
    }
    if Acyclic(g) {
      forall i, j | 0 <= i <= j < |order| ensures !Edge(g, order[j], order[i]) {
        assert order[i] !in order[j + 1..];
      }
    }
    if Topological(g, order) {
      TopologicalImpliesAcyclic(g, order);
    }
  }
}
