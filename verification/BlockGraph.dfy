/** The block graph that connect_ports builds, and the list of blocks a schedule is made of. */
module BlockGraph {

  /** A block's system-wide unique name. */
  type Name = string

  /** What the scheduler asks of a block: is it a Source, is it a Sink, and which ports does it have. */
  datatype Block = Block(source: bool, sink: bool, outPorts: seq<string>, inPorts: seq<string>)

  /** One successful connect_ports call. */
  datatype Wire = Wire(src: Name, outPort: string, dst: Name, inPort: string)

  /** The blocks by name, and every connect call in the order in which it was made. */
  datatype Graph = Graph(blocks: map<Name, Block>, wires: seq<Wire>)

  predicate WireFits(g: Graph, w: Wire) {
    && w.src in g.blocks && g.blocks[w.src].source && w.outPort in g.blocks[w.src].outPorts
    && w.dst in g.blocks && g.blocks[w.dst].sink && w.inPort in g.blocks[w.dst].inPorts
  }

  /** connect_ports accepts a call only if both blocks and both ports exist. */
  ghost predicate Valid(g: Graph) {
    forall w :: w in g.wires ==> WireFits(g, w)
  }

  predicate PortsDiffer(w: Wire, v: Wire) {
    && (w.src, w.outPort) != (v.src, v.outPort)
    && (w.dst, w.inPort) != (v.dst, v.inPort)
  }

  /** No out port and no in port is used by two connect calls. */
  ghost predicate PortsUsedOnce(g: Graph) {
    forall i, j :: 0 <= i < j < |g.wires| ==> PortsDiffer(g.wires[i], g.wires[j])
  }

  /** The set of block names kept by Source::add_connection. */
  function Connections(g: Graph, u: Name): set<Name> {
    set w | w in g.wires && w.src == u :: w.dst
  }

  predicate Edge(g: Graph, u: Name, v: Name) {
    v in Connections(g, u)
  }

  lemma EdgeHasWire(g: Graph, u: Name, v: Name) returns (w: Wire)
    requires Edge(g, u, v)
    ensures w in g.wires && w.src == u && w.dst == v
  {
    w :| w in g.wires && w.src == u && w.dst == v;
  }

  /** Only Sources have outgoing connections. */
  lemma OnlySourcesConnect(g: Graph, u: Name)
    requires Valid(g) && u in g.blocks
    ensures !g.blocks[u].source ==> Connections(g, u) == {}
  {
    forall v | v in Connections(g, u) ensures g.blocks[u].source {
      var w := EdgeHasWire(g, u, v);
      assert WireFits(g, w);
    }
  }

  /** A cycle: a walk of at least one edge that returns to its first block. */
  ghost predicate Cycle(g: Graph, walk: seq<Name>) {
    && |walk| >= 2
    && walk[0] == walk[|walk| - 1]
    && Walk(g, walk)
  }

  ghost predicate Walk(g: Graph, walk: seq<Name>) {
    forall i :: 0 <= i < |walk| - 1 ==> Edge(g, walk[i], walk[i + 1])
  }

  ghost predicate Acyclic(g: Graph) {
    !exists walk :: Cycle(g, walk)
  }

  /** Connections that lead from each to the next and from the last back to the first. */
  ghost predicate Loop(g: Graph, ws: seq<Wire>) {
    && ws != []
    && (forall i :: 0 <= i < |ws| ==> ws[i] in g.wires)
    && (forall i :: 0 <= i < |ws| - 1 ==> ws[i].dst == ws[i + 1].src)
    && ws[|ws| - 1].dst == ws[0].src
  }

  ghost function WireOf(g: Graph, u: Name, v: Name): (w: Wire)
    requires Edge(g, u, v)
    ensures w in g.wires && w.src == u && w.dst == v
  {
    var w :| w in g.wires && w.src == u && w.dst == v;
    w
  }

  lemma CycleIsLoop(g: Graph, walk: seq<Name>)
    requires Cycle(g, walk)
    ensures exists ws :: Loop(g, ws)
  {
    var ws := seq(|walk| - 1, i requires 0 <= i < |walk| - 1 => WireOf(g, walk[i], walk[i + 1]));
    assert Loop(g, ws);
  }

  lemma LoopIsCycle(g: Graph, ws: seq<Wire>)
    requires Loop(g, ws)
    ensures exists walk :: Cycle(g, walk)
  {
    var walk := seq(|ws| + 1, i requires 0 <= i <= |ws| => if i < |ws| then ws[i].src else ws[0].src);
    forall i | 0 <= i < |walk| - 1 ensures Edge(g, walk[i], walk[i + 1]) {
      assert ws[i] in g.wires && ws[i].dst == walk[i + 1];
    }
    assert Cycle(g, walk);
  }

  /** A graph is acyclic exactly if no list of connections leads back to where it starts. */
  lemma AcyclicMeansNoLoop(g: Graph)
    ensures Acyclic(g) <==> !exists ws :: Loop(g, ws)
  {
    if walk :| Cycle(g, walk) {
      CycleIsLoop(g, walk);
    }
    if ws :| Loop(g, ws) {
      LoopIsCycle(g, ws);
    }
  }

  // ---- lists of blocks ----

  /** No connection leads from a block of `from` to a block of `to`. */
  ghost predicate NoEdges(g: Graph, from: seq<Name>, to: seq<Name>) {
    forall u, v :: u in from && v in to ==> !Edge(g, u, v)
  }

  /** Every connection inside the list leads to a strictly later position. */
  ghost predicate Topological(g: Graph, order: seq<Name>) {
    forall i, j :: 0 <= i <= j < |order| ==> !Edge(g, order[j], order[i])
  }

  ghost predicate Distinct<T>(s: seq<T>) {
    forall i, j :: 0 <= i < j < |s| ==> s[i] != s[j]
  }

  /** The list holds both ends of every connection. */
  ghost predicate Covers(g: Graph, order: seq<Name>) {
    forall w :: w in g.wires ==> w.src in order && w.dst in order
  }

  lemma TopologicalConcat(g: Graph, a: seq<Name>, b: seq<Name>)
    ensures Topological(g, a + b) <==> Topological(g, a) && Topological(g, b) && NoEdges(g, b, a)
  {
    var ab := a + b;
    if Topological(g, ab) {
      forall i, j | 0 <= i <= j < |a| ensures !Edge(g, a[j], a[i]) {
        assert ab[i] == a[i] && ab[j] == a[j];
      }
      forall i, j | 0 <= i <= j < |b| ensures !Edge(g, b[j], b[i]) {
        assert ab[|a| + i] == b[i] && ab[|a| + j] == b[j];
      }
      forall u, v | u in b && v in a ensures !Edge(g, u, v) {
        var j :| 0 <= j < |b| && b[j] == u;
        var i :| 0 <= i < |a| && a[i] == v;
        assert ab[|a| + j] == u && ab[i] == v;
      }
    }
    if Topological(g, a) && Topological(g, b) && NoEdges(g, b, a) {
      forall i, j | 0 <= i <= j < |ab| ensures !Edge(g, ab[j], ab[i]) {
        if j < |a| {
          assert ab[j] == a[j] && ab[i] == a[i];
        } else if i < |a| {
          assert ab[j] == b[j - |a|] && ab[i] == a[i];
          assert ab[j] in b && ab[i] in a;
        } else {
          assert ab[j] == b[j - |a|] && ab[i] == b[i - |a|];
        }
      }
    }
  }

  lemma NoEdgesConcat(g: Graph, a: seq<Name>, b: seq<Name>, c: seq<Name>)
    ensures NoEdges(g, a + b, c) <==> NoEdges(g, a, c) && NoEdges(g, b, c)
    ensures NoEdges(g, c, a + b) <==> NoEdges(g, c, a) && NoEdges(g, c, b)
  {
    assert forall u :: u in a + b <==> u in a || u in b;
  }

  /** Pulling v forward past `mid` keeps the order topological when nothing in `mid` feeds v. */
  lemma PullForward(g: Graph, pre: seq<Name>, mid: seq<Name>, v: Name, post: seq<Name>)
    requires Topological(g, pre + mid + [v] + post)
    requires NoEdges(g, mid, [v])
    ensures Topological(g, pre + [v] + mid + post)
  {
    TopologicalConcat(g, pre + mid + [v], post);
    TopologicalConcat(g, pre + mid, [v]);
    TopologicalConcat(g, pre, mid);
    NoEdgesConcat(g, pre, mid, [v]);
    NoEdgesConcat(g, pre + mid, [v], post);
    NoEdgesConcat(g, pre, mid, post);
    TopologicalConcat(g, pre, [v]);
    NoEdgesConcat(g, pre, [v], mid);
    TopologicalConcat(g, pre + [v], mid);
    NoEdgesConcat(g, pre + [v], mid, post);
    NoEdgesConcat(g, pre, [v], post);
    TopologicalConcat(g, pre + [v] + mid, post);
  }

  /** A walk through a topologically ordered list only moves to later positions. */
  lemma {:induction false} WalkMovesRight(g: Graph, order: seq<Name>, walk: seq<Name>, i: nat, j: nat)
    requires Topological(g, order) && Walk(g, walk) && |walk| >= 2
    requires forall n :: n in walk ==> n in order
    requires i < |order| && order[i] == walk[0] && j < |order| && order[j] == walk[|walk| - 1]
    ensures i < j
    decreases |walk|
  {
    assert Edge(g, walk[0], walk[1]);
    assert walk[1] in walk;
    var k :| 0 <= k < |order| && order[k] == walk[1];
    assert i < k;
    if |walk| > 2 {
      var rest := walk[1..];
      assert Walk(g, rest) by {
        forall n | 0 <= n < |rest| - 1 ensures Edge(g, rest[n], rest[n + 1]) {
          assert rest[n] == walk[n + 1] && rest[n + 1] == walk[n + 2];
        }
      }
      WalkMovesRight(g, order, rest, k, j);
    }
  }

  /** A graph that has a topological order holding all its connections has no cycle. */
  lemma TopologicalImpliesAcyclic(g: Graph, order: seq<Name>)
    requires Topological(g, order) && Covers(g, order)
    ensures Acyclic(g)
  {
    forall walk | Cycle(g, walk) ensures false {
      forall n | n in walk ensures n in order {
        var k :| 0 <= k < |walk| && walk[k] == n;
        if k < |walk| - 1 {
          var w := EdgeHasWire(g, walk[k], walk[k + 1]);
        } else {
          var w := EdgeHasWire(g, walk[k - 1], walk[k]);
        }
      }
      assert walk[0] in walk;
      var i :| 0 <= i < |order| && order[i] == walk[0];
      WalkMovesRight(g, order, walk, i, i);
    }
  }

  // ---- degree facts that follow from using each port once ----

  lemma SameWire(g: Graph, w: Wire, v: Wire)
    requires PortsUsedOnce(g) && w in g.wires && v in g.wires
    requires (w.src, w.outPort) == (v.src, v.outPort) || (w.dst, w.inPort) == (v.dst, v.inPort)
    ensures w == v
  {
    var i :| 0 <= i < |g.wires| && g.wires[i] == w;
    var j :| 0 <= j < |g.wires| && g.wires[j] == v;
    assert i < j ==> PortsDiffer(g.wires[i], g.wires[j]);
    assert j < i ==> PortsDiffer(g.wires[j], g.wires[i]);
  }

  lemma OneInPortOnePredecessor(g: Graph, u: Name, u': Name, v: Name)
    requires Valid(g) && PortsUsedOnce(g) && Edge(g, u, v) && Edge(g, u', v)
    requires v in g.blocks && |g.blocks[v].inPorts| <= 1
    ensures u == u'
  {
    var w := EdgeHasWire(g, u, v);
    var w' := EdgeHasWire(g, u', v);
    assert WireFits(g, w) && WireFits(g, w');
    SameWire(g, w, w');
  }

  lemma OneOutPortOneSuccessor(g: Graph, u: Name, v: Name, v': Name)
    requires Valid(g) && PortsUsedOnce(g) && Edge(g, u, v) && Edge(g, u, v')
    requires u in g.blocks && |g.blocks[u].outPorts| <= 1
    ensures v == v'
  {
    var w := EdgeHasWire(g, u, v);
    var w' := EdgeHasWire(g, u, v');
    assert WireFits(g, w) && WireFits(g, w');
    SameWire(g, w, w');
  }
}
