/** Signal attributes and buffers: the part of System::initialize between placing and combining. */
module Propagation {
  import opened BlockGraph
  import opened Ports

  datatype Pin = Pin(block: Name, port: string)

  function Src(w: Wire): Pin { Pin(w.src, w.outPort) }
  function Dst(w: Wire): Pin { Pin(w.dst, w.inPort) }

  datatype Buffer = Buffer(kind: Kind, size: nat)

  /** What the ports hold, by pin. */
  datatype Wiring = Wiring(ins: map<Pin, Attributes>, outs: map<Pin, Attributes>)

  /** What a block's setup_output_ports makes of the attributes of its in ports. */
  type Setup = (Name, map<string, Attributes>) -> map<string, Attributes>

  predicate IsOut(g: Graph, pin: Pin) {
    pin.block in g.blocks && g.blocks[pin.block].source && pin.port in g.blocks[pin.block].outPorts
  }

  predicate IsIn(g: Graph, pin: Pin) {
    pin.block in g.blocks && g.blocks[pin.block].sink && pin.port in g.blocks[pin.block].inPorts
  }

  /** The state has exactly the ports of the graph. */
  ghost predicate Complete(g: Graph, st: Wiring) {
    (forall pin :: pin in st.ins <==> IsIn(g, pin)) && (forall pin :: pin in st.outs <==> IsOut(g, pin))
  }

  function PortNames(g: Graph, b: Name): set<string>
    requires b in g.blocks
  {
    set p | p in g.blocks[b].outPorts
  }

  /** setup_output_ports sets every out port of the block, possibly to attributes that are not set themselves. */
  ghost predicate SetupTotal(g: Graph, setup: Setup) {
    forall b, m :: b in g.blocks ==> setup(b, m).Keys == PortNames(g, b)
  }

  /** What a block sees at its in ports. */
  function Inputs(g: Graph, ins: map<Pin, Attributes>, b: Name): map<string, Attributes>
    requires b in g.blocks
  {
    map p | p in g.blocks[b].inPorts && Pin(b, p) in ins :: ins[Pin(b, p)]
  }

  // ---- what a solution is ----

  /** The out ports of b are what its setup function makes of its in ports. */
  ghost predicate SetUp(g: Graph, setup: Setup, st: Wiring, b: Name)
    requires b in g.blocks && g.blocks[b].source && Complete(g, st) && SetupTotal(g, setup)
  {
    forall p :: p in PortNames(g, b) ==> st.outs[Pin(b, p)] == setup(b, Inputs(g, st.ins, b))[p]
  }

  predicate Delivered(st: Wiring, w: Wire) {
    Src(w) in st.outs && Dst(w) in st.ins && st.ins[Dst(w)] == st.outs[Src(w)]
  }

  ghost predicate Undriven(wires: seq<Wire>, pin: Pin) {
    forall w :: w in wires ==> Dst(w) != pin
  }

  /** Every connected pair agrees, every source block is set up, and every other in port keeps what it was given. */
  ghost predicate Solves(g: Graph, setup: Setup, preset: Wiring, st: Wiring)
    requires Complete(g, preset) && SetupTotal(g, setup)
  {
    && Complete(g, st)
    && (forall b :: b in g.blocks && g.blocks[b].source ==> SetUp(g, setup, st, b))
    && (forall w :: w in g.wires ==> Delivered(st, w))
    && (forall pin :: IsIn(g, pin) && Undriven(g.wires, pin) ==> st.ins[pin] == preset.ins[pin])
  }

  // ---- the steps on values ----

  /** The out ports of b that are among the given names have their new attributes. */
  function PartlySet(outs: map<Pin, Attributes>, b: Name, names: seq<string>, attrs: map<string, Attributes>): map<Pin, Attributes> {
    map pin | pin in outs :: if pin.block == b && pin.port in names && pin.port in attrs then attrs[pin.port] else outs[pin]
  }

  function WithOuts(st: Wiring, b: Name, names: seq<string>, attrs: map<string, Attributes>): Wiring {
    Wiring(st.ins, PartlySet(st.outs, b, names, attrs))
  }

  function SetupOuts(g: Graph, setup: Setup, st: Wiring, b: Name): Wiring
    requires b in g.blocks
  {
    WithOuts(st, b, g.blocks[b].outPorts, setup(b, Inputs(g, st.ins, b)))
  }

  function Deliver(st: Wiring, w: Wire): Wiring
    requires Src(w) in st.outs
  {
    st.(ins := st.ins[Dst(w) := st.outs[Src(w)]])
  }

  /** After the blocks of `seen` were set up and the connect calls of `done` made. */
  ghost predicate Reached(g: Graph, setup: Setup, preset: Wiring, st: Wiring, seen: seq<Name>, done: seq<Wire>)
    requires Complete(g, preset) && SetupTotal(g, setup)
  {
    && Complete(g, st)
    && (forall b :: b in seen && b in g.blocks && g.blocks[b].source ==> SetUp(g, setup, st, b))
    && (forall w :: w in done ==> Delivered(st, w) && w in g.wires && w.src in seen)
    && (forall pin :: IsIn(g, pin) && Undriven(done, pin) ==> st.ins[pin] == preset.ins[pin])
  }

  lemma ReachedStart(g: Graph, setup: Setup, preset: Wiring)
    requires Complete(g, preset) && SetupTotal(g, setup)
    ensures Reached(g, setup, preset, preset, [], [])
  {
  }

  lemma SetupStep(g: Graph, setup: Setup, preset: Wiring, st: Wiring, seen: seq<Name>, done: seq<Wire>, b: Name)
    requires Complete(g, preset) && SetupTotal(g, setup) && Reached(g, setup, preset, st, seen, done)
    requires b in g.blocks && g.blocks[b].source && b !in seen
    ensures Reached(g, setup, preset, SetupOuts(g, setup, st, b), seen + [b], done)
  {
    var st1 := SetupOuts(g, setup, st, b);
    forall c | c in seen + [b] && c in g.blocks && g.blocks[c].source ensures SetUp(g, setup, st1, c) {
      if c != b {
        assert SetUp(g, setup, st, c);
      }
    }
    forall w | w in done ensures Delivered(st1, w) && w in g.wires && w.src in seen + [b] {
      assert Delivered(st, w);
    }
  }

  /** A block that is no Source is passed over. */
  lemma SkipStep(g: Graph, setup: Setup, preset: Wiring, st: Wiring, seen: seq<Name>, done: seq<Wire>, b: Name)
    requires Complete(g, preset) && SetupTotal(g, setup) && Reached(g, setup, preset, st, seen, done)
    requires b in g.blocks && !g.blocks[b].source
    ensures Reached(g, setup, preset, st, seen + [b], done)
  {
  }

  lemma WireStep(g: Graph, setup: Setup, preset: Wiring, st: Wiring, seen: seq<Name>, done: seq<Wire>, w: Wire)
    requires Valid(g) && PortsUsedOnce(g)
    requires Complete(g, preset) && SetupTotal(g, setup) && Reached(g, setup, preset, st, seen, done)
    requires w in g.wires && w !in done && w.src in seen && w.dst !in seen
    ensures Src(w) in st.outs && Dst(w) in st.ins && st.ins[Dst(w)] == preset.ins[Dst(w)]
    ensures Reached(g, setup, preset, Deliver(st, w), seen, done + [w])
  {
    assert WireFits(g, w);
    assert IsOut(g, Src(w)) && IsIn(g, Dst(w));
    assert Undriven(done, Dst(w)) by {
      forall v | v in done ensures Dst(v) != Dst(w) {
        if Dst(v) == Dst(w) {
          SameWire(g, v, w);
        }
      }
    }
    var st1 := Deliver(st, w);
    forall c | c in seen && c in g.blocks && g.blocks[c].source ensures SetUp(g, setup, st1, c) {
      assert SetUp(g, setup, st, c);
      assert Inputs(g, st1.ins, c) == Inputs(g, st.ins, c);
    }
    forall v | v in done + [w] ensures Delivered(st1, v) && v in g.wires && v.src in seen {
      if v != w {
        assert Delivered(st, v) && Dst(v) != Dst(w);
      }
    }
    forall pin | IsIn(g, pin) && Undriven(done + [w], pin) ensures st1.ins[pin] == preset.ins[pin] {
      assert w in done + [w];
      assert Undriven(done, pin);
    }
  }

  /** Once every block is seen and every call made, the state is a solution. */
  lemma ReachedEnd(g: Graph, setup: Setup, preset: Wiring, st: Wiring, seen: seq<Name>, done: seq<Wire>)
    requires Complete(g, preset) && SetupTotal(g, setup) && Reached(g, setup, preset, st, seen, done)
    requires forall b :: b in g.blocks && g.blocks[b].source ==> b in seen
    requires forall w :: w in g.wires ==> w in done
    ensures Solves(g, setup, preset, st)
  {
    forall pin | IsIn(g, pin) && Undriven(g.wires, pin) ensures st.ins[pin] == preset.ins[pin] {
      assert Undriven(done, pin);
    }
  }

  // ---- the solution is unique ----

  /** A wire into a block of a topological order comes from an earlier block. */
  lemma ComesFromBefore(g: Graph, order: seq<Name>, i: nat, w: Wire)
    requires Topological(g, order) && Covers(g, order) && i < |order| && w in g.wires && w.dst == order[i]
    ensures w.src in order[..i]
  {
    var j :| 0 <= j < |order| && order[j] == w.src;
    assert Edge(g, order[j], order[i]);
  }

  /** Two states agree on what a block sees, if they agree on the blocks before it and both have made the calls of those. */
  lemma SameInputs(g: Graph, preset: Wiring, st: Wiring, done: seq<Wire>, s: Wiring, order: seq<Name>, i: nat)
    requires Valid(g) && Topological(g, order) && Covers(g, order) && i < |order| && order[i] in g.blocks
    requires Complete(g, preset) && Complete(g, st) && Complete(g, s)
    requires forall w :: w in g.wires && w.src in order[..i] ==> w in done && Delivered(st, w) && Delivered(s, w)
    requires forall w :: w in done ==> w in g.wires
    requires forall pin :: IsIn(g, pin) && Undriven(done, pin) ==> st.ins[pin] == preset.ins[pin]
    requires forall pin :: IsIn(g, pin) && Undriven(g.wires, pin) ==> s.ins[pin] == preset.ins[pin]
    requires forall pin :: IsOut(g, pin) && pin.block in order[..i] ==> st.outs[pin] == s.outs[pin]
    ensures Inputs(g, st.ins, order[i]) == Inputs(g, s.ins, order[i])
  {
    forall pin | IsIn(g, pin) && pin.block == order[i] ensures st.ins[pin] == s.ins[pin] {
      if Undriven(g.wires, pin) {
        assert Undriven(done, pin);
      } else {
        var w :| w in g.wires && Dst(w) == pin;
        ComesFromBefore(g, order, i, w);
        assert WireFits(g, w) && IsOut(g, Src(w));
        assert Delivered(st, w) && Delivered(s, w);
      }
    }
  }

  /** On the blocks seen so far a partly propagated state agrees with any solution. */
  lemma {:induction false} AgreesWithSolution(g: Graph, setup: Setup, preset: Wiring, st: Wiring, order: seq<Name>, k: nat,
                                              done: seq<Wire>, s: Wiring, i: nat)
    requires Valid(g) && Topological(g, order) && Covers(g, order) && i <= k <= |order|
    requires forall b :: b in order ==> b in g.blocks
    requires Complete(g, preset) && SetupTotal(g, setup)
    requires Reached(g, setup, preset, st, order[..k], done) && Solves(g, setup, preset, s)
    requires forall w :: w in g.wires && k > 0 && w.src in order[..k - 1] ==> w in done
    ensures forall pin :: IsOut(g, pin) && pin.block in order[..i] ==> st.outs[pin] == s.outs[pin]
  {
    if i > 0 {
      AgreesWithSolution(g, setup, preset, st, order, k, done, s, i - 1);
      var b := order[i - 1];
      forall w | w in g.wires && w.src in order[..i - 1] ensures w in done && Delivered(st, w) && Delivered(s, w) {
        assert w.src in order[..k - 1];
      }
      SameInputs(g, preset, st, done, s, order, i - 1);
      forall pin | IsOut(g, pin) && pin.block in order[..i] ensures st.outs[pin] == s.outs[pin] {
        if pin.block !in order[..i - 1] {
          assert pin == Pin(b, pin.port) && b in order[..k];
          assert SetUp(g, setup, st, b) && SetUp(g, setup, s, b);
        }
      }
    }
  }

  lemma SolutionReached(g: Graph, setup: Setup, preset: Wiring, order: seq<Name>, s: Wiring)
    requires Complete(g, preset) && SetupTotal(g, setup) && Solves(g, setup, preset, s) && Covers(g, order)
    ensures Reached(g, setup, preset, s, order, g.wires)
  {
  }

  lemma SameIns(g: Graph, setup: Setup, preset: Wiring, s: Wiring, t: Wiring)
    requires Valid(g) && Complete(g, preset) && SetupTotal(g, setup)
    requires Solves(g, setup, preset, s) && Solves(g, setup, preset, t) && s.outs == t.outs
    ensures s.ins == t.ins
  {
    forall pin | IsIn(g, pin) ensures s.ins[pin] == t.ins[pin] {
      if !Undriven(g.wires, pin) {
        var w :| w in g.wires && Dst(w) == pin;
        assert Delivered(s, w) && Delivered(t, w);
      }
    }
  }

  lemma SameOuts(g: Graph, setup: Setup, preset: Wiring, order: seq<Name>, s: Wiring, t: Wiring)
    requires Valid(g) && Complete(g, preset) && SetupTotal(g, setup) && Placement(g, order)
    requires Solves(g, setup, preset, s) && Solves(g, setup, preset, t)
    ensures s.outs == t.outs
  {
    SolutionReached(g, setup, preset, order, s);
    assert order[..|order|] == order;
    AgreesWithSolution(g, setup, preset, s, order, |order|, g.wires, t, |order|);
    forall pin | IsOut(g, pin) ensures s.outs[pin] == t.outs[pin] {
      assert pin.block in order;
    }
  }

  /** An acyclic graph has at most one solution for the given presets. */
  lemma SolutionUnique(g: Graph, setup: Setup, preset: Wiring, order: seq<Name>, s: Wiring, t: Wiring)
    requires Valid(g) && Complete(g, preset) && SetupTotal(g, setup) && Placement(g, order)
    requires Solves(g, setup, preset, s) && Solves(g, setup, preset, t)
    ensures s == t
  {
    SameOuts(g, setup, preset, order, s, t);
    SameIns(g, setup, preset, s, t);
  }

  /** What placing the blocks of an acyclic graph leaves: a dependency order of all that takes part. */
  ghost predicate Placement(g: Graph, order: seq<Name>) {
    && Topological(g, order) && Covers(g, order) && Distinct(order)
    && (forall b :: b in order ==> b in g.blocks)
    && (forall b :: b in g.blocks && g.blocks[b].source ==> b in order)
  }

  // ---- attributes travel ----

  /** The setup of block b makes out port q what in port p is. */
  ghost predicate Forwards(g: Graph, setup: Setup, b: Name, p: string, q: string)
    requires b in g.blocks && SetupTotal(g, setup)
  {
    q in PortNames(g, b) && forall m :: p in m ==> setup(b, m)[q] == m[p]
  }

  /** A block that forwards an in port passes the attributes of a connection on, or those that the port was given. */
  lemma AttributesTravel(g: Graph, setup: Setup, preset: Wiring, s: Wiring, pin: Pin, q: string)
    requires Valid(g) && Complete(g, preset) && SetupTotal(g, setup) && Solves(g, setup, preset, s)
    requires IsIn(g, pin) && g.blocks[pin.block].source && Forwards(g, setup, pin.block, pin.port, q)
    ensures forall w :: w in g.wires && Dst(w) == pin ==> Src(w) in s.outs && s.outs[Pin(pin.block, q)] == s.outs[Src(w)]
    ensures Undriven(g.wires, pin) ==> s.outs[Pin(pin.block, q)] == preset.ins[pin]
  {
    var b := pin.block;
    var m := Inputs(g, s.ins, b);
    assert pin.port in m && m[pin.port] == s.ins[pin];
    assert SetUp(g, setup, s, b);
    forall w | w in g.wires && Dst(w) == pin ensures Src(w) in s.outs && s.outs[Pin(b, q)] == s.outs[Src(w)] {
      assert Delivered(s, w);
    }
  }

  // ---- what else makes propagation succeed ----

  ghost predicate AllProper(g: Graph, st: Wiring)
    requires Complete(g, st)
  {
    forall pin :: IsOut(g, pin) ==> Proper(st.outs[pin])
  }

  /** All out ports of the blocks seen so far are properly set up. */
  ghost predicate ProperSeen(g: Graph, st: Wiring, seen: seq<Name>)
    requires Complete(g, st)
  {
    forall pin :: IsOut(g, pin) && pin.block in seen ==> Proper(st.outs[pin])
  }

  predicate ProperMap(m: map<string, Attributes>) {
    forall p :: p in m ==> Proper(m[p])
  }

  /** From proper in ports the blocks make proper out ports. */
  ghost predicate KeepsProper(g: Graph, setup: Setup) {
    forall b, m :: b in g.blocks && ProperMap(m) ==> ProperMap(setup(b, m))
  }

  /** If every in port is driven or was given proper attributes, and setups keep attributes proper, no attribute stays unset. */
  lemma DrivenIsProper(g: Graph, setup: Setup, preset: Wiring, order: seq<Name>, s: Wiring)
    requires Valid(g) && Complete(g, preset) && SetupTotal(g, setup) && Placement(g, order) && Solves(g, setup, preset, s)
    requires KeepsProper(g, setup) && forall pin :: IsIn(g, pin) && Undriven(g.wires, pin) ==> Proper(preset.ins[pin])
    ensures AllProper(g, s)
  {
    ProperUpTo(g, setup, preset, order, s, |order|);
    assert order[..|order|] == order;
  }

  lemma {:induction false} ProperUpTo(g: Graph, setup: Setup, preset: Wiring, order: seq<Name>, s: Wiring, i: nat)
    requires Valid(g) && Complete(g, preset) && SetupTotal(g, setup) && Placement(g, order) && Solves(g, setup, preset, s)
    requires KeepsProper(g, setup) && forall pin :: IsIn(g, pin) && Undriven(g.wires, pin) ==> Proper(preset.ins[pin])
    requires i <= |order|
    ensures ProperSeen(g, s, order[..i])
  {
    if i > 0 {
      ProperUpTo(g, setup, preset, order, s, i - 1);
      var b := order[i - 1];
      ProperInputs(g, preset, s, order, i - 1);
      if g.blocks[b].source {
        ProperOuts(g, setup, s, b);
      }
      ProperMore(g, s, order[..i - 1], b);
      assert order[..i] == order[..i - 1] + [b];
    }
  }

  lemma ProperMore(g: Graph, s: Wiring, seen: seq<Name>, b: Name)
    requires Complete(g, s) && b in g.blocks && ProperSeen(g, s, seen) && (g.blocks[b].source ==> ProperSeen(g, s, [b]))
    ensures ProperSeen(g, s, seen + [b])
  {
  }

  lemma ProperOuts(g: Graph, setup: Setup, s: Wiring, b: Name)
    requires b in g.blocks && g.blocks[b].source && Complete(g, s) && SetupTotal(g, setup) && SetUp(g, setup, s, b)
    requires KeepsProper(g, setup) && ProperMap(Inputs(g, s.ins, b))
    ensures ProperSeen(g, s, [b])
  {
    assert ProperMap(setup(b, Inputs(g, s.ins, b)));
    forall pin | IsOut(g, pin) && pin.block == b ensures Proper(s.outs[pin]) {
      assert pin.port in PortNames(g, b) && pin == Pin(b, pin.port);
    }
  }

  lemma ProperInputs(g: Graph, preset: Wiring, s: Wiring, order: seq<Name>, i: nat)
    requires Valid(g) && Complete(g, preset) && Complete(g, s) && Placement(g, order) && i < |order|
    requires forall w :: w in g.wires ==> Delivered(s, w)
    requires forall pin :: IsIn(g, pin) && Undriven(g.wires, pin) ==> s.ins[pin] == preset.ins[pin] && Proper(preset.ins[pin])
    requires ProperSeen(g, s, order[..i])
    ensures ProperMap(Inputs(g, s.ins, order[i]))
  {
    forall pin | IsIn(g, pin) && pin.block == order[i] ensures Proper(s.ins[pin]) {
      if !Undriven(g.wires, pin) {
        var w :| w in g.wires && Dst(w) == pin;
        ComesFromBefore(g, order, i, w);
        assert WireFits(g, w) && IsOut(g, Src(w)) && Delivered(s, w);
      }
    }
  }

  /** The connect calls that a source block has recorded. */
  function Calls(wires: seq<Wire>, b: Name): (calls: seq<Wire>)
    ensures forall w :: w in calls <==> w in wires && w.src == b
  {
    if wires == [] then [] else
      var calls, last := Calls(wires[..|wires| - 1], b), wires[|wires| - 1];
      if last.src == b then calls + [last] else calls
  }

  // ---- the order of the connect calls ----

  ghost predicate Precedes<T>(s: seq<T>, x: T, y: T) {
    exists i, j :: 0 <= i < j < |s| && s[i] == x && s[j] == y
  }

  /** The block of w is placed before that of v, or it is the same block and w was connected first. */
  ghost predicate Earlier(g: Graph, order: seq<Name>, w: Wire, v: Wire) {
    Precedes(order, w.src, v.src) || (w.src == v.src && Precedes(g.wires, w, v))
  }

  ghost predicate InCallOrder(g: Graph, order: seq<Name>, done: seq<Wire>) {
    forall i, j :: 0 <= i < j < |done| ==> Earlier(g, order, done[i], done[j])
  }

  /** Of the calls of w's block exactly those before w have been made. */
  ghost predicate NextCall(g: Graph, done: seq<Wire>, w: Wire) {
    forall v :: v in g.wires && v.src == w.src ==> (v in done <==> Precedes(g.wires, v, w))
  }

  lemma PrecedesOneWay<T>(s: seq<T>, x: T, y: T)
    requires Distinct(s) && Precedes(s, x, y)
    ensures !Precedes(s, y, x) && x != y
  {
  }

  lemma PrecedesMore<T>(s: seq<T>, t: seq<T>, x: T, y: T)
    requires Precedes(s, x, y)
    ensures Precedes(s + t, x, y)
  {
    var i, j :| 0 <= i < j < |s| && s[i] == x && s[j] == y;
    assert (s + t)[i] == x && (s + t)[j] == y;
  }

  lemma PrecedesLast<T>(s: seq<T>, x: T, y: T)
    requires x in s
    ensures Precedes(s + [y], x, y)
  {
    var i :| 0 <= i < |s| && s[i] == x;
    assert (s + [y])[i] == x && (s + [y])[|s|] == y;
  }

  lemma {:induction false} CallsInOrder(wires: seq<Wire>, b: Name, i: nat, j: nat)
    requires i < j < |Calls(wires, b)|
    ensures Precedes(wires, Calls(wires, b)[i], Calls(wires, b)[j])
    decreases |wires|
  {
    var front, last := wires[..|wires| - 1], wires[|wires| - 1];
    var calls := Calls(front, b);
    assert wires == front + [last];
    if j < |calls| {
      CallsInOrder(front, b, i, j);
      PrecedesMore(front, [last], calls[i], calls[j]);
    } else {
      assert calls[i] in calls;
      PrecedesLast(front, calls[i], last);
    }
  }

  /** The calls of a block up to number j are those before it. */
  lemma CallsUpTo(g: Graph, done: seq<Wire>, b: Name, j: nat)
    requires Distinct(g.wires) && j < |Calls(g.wires, b)| && forall v :: v in done ==> v.src != b
    ensures NextCall(g, done + Calls(g.wires, b)[..j], Calls(g.wires, b)[j])
  {
    var calls := Calls(g.wires, b);
    var w := calls[j];
    assert w in calls;
    CallsDistinct(g.wires, b);
    forall v | v in g.wires && v.src == w.src ensures v in done + calls[..j] <==> Precedes(g.wires, v, w) {
      var i :| 0 <= i < |calls| && calls[i] == v;
      if i < j {
        CallsInOrder(g.wires, b, i, j);
        assert calls[..j][i] == v;
      } else if j < i {
        CallsInOrder(g.wires, b, j, i);
        PrecedesOneWay(g.wires, w, v);
      }
    }
  }

  /** A call that is next for its block, which was placed last, comes after all that were made. */
  lemma NextComesLast(g: Graph, order: seq<Name>, k: nat, done: seq<Wire>, w: Wire)
    requires 0 < k <= |order| && w in g.wires && w.src == order[k - 1] && NextCall(g, done, w)
    requires forall v :: v in done ==> v in g.wires && v.src in order[..k]
    ensures forall v :: v in done ==> Earlier(g, order[..k], v, w)
  {
    assert order[..k] == order[..k - 1] + [w.src];
    forall v | v in done ensures Earlier(g, order[..k], v, w) {
      if v.src != w.src {
        PrecedesLast(order[..k - 1], v.src, w.src);
      }
    }
  }

  lemma InCallOrderMore(g: Graph, seen: seq<Name>, b: Name, done: seq<Wire>)
    requires InCallOrder(g, seen, done)
    ensures InCallOrder(g, seen + [b], done)
  {
    forall i, j | 0 <= i < j < |done| ensures Earlier(g, seen + [b], done[i], done[j]) {
      if Precedes(seen, done[i].src, done[j].src) {
        PrecedesMore(seen, [b], done[i].src, done[j].src);
      }
    }
  }

  lemma EarlierOneWay(g: Graph, order: seq<Name>, w: Wire, v: Wire)
    requires Distinct(order) && Distinct(g.wires) && Earlier(g, order, w, v)
    ensures !Earlier(g, order, v, w)
  {
    if Precedes(order, w.src, v.src) {
      PrecedesOneWay(order, w.src, v.src);
    } else {
      PrecedesOneWay(g.wires, w, v);
    }
  }

  lemma {:induction false} CallsDistinct(wires: seq<Wire>, b: Name)
    requires Distinct(wires)
    ensures Distinct(Calls(wires, b))
  {
    if wires != [] {
      CallsDistinct(wires[..|wires| - 1], b);
    }
  }

  lemma WiresDistinct(g: Graph)
    requires PortsUsedOnce(g)
    ensures Distinct(g.wires)
  {
    forall i, j | 0 <= i < j < |g.wires| ensures g.wires[i] != g.wires[j] {
      assert PortsDiffer(g.wires[i], g.wires[j]);
    }
  }

  /** Propagation without any check always ends in a solution. */
  lemma {:induction false} SolutionExists(g: Graph, setup: Setup, preset: Wiring, order: seq<Name>, k: nat) returns (st: Wiring, done: seq<Wire>)
    requires Valid(g) && PortsUsedOnce(g) && Complete(g, preset) && SetupTotal(g, setup) && Placement(g, order) && k <= |order|
    ensures Reached(g, setup, preset, st, order[..k], done)
    ensures forall w :: w in g.wires && w.src in order[..k] ==> w in done
    ensures k == |order| ==> Solves(g, setup, preset, st)
  {
    if k == 0 {
      st, done := preset, [];
      ReachedStart(g, setup, preset);
    } else {
      var b := order[k - 1];
      st, done := SolutionExists(g, setup, preset, order, k - 1);
      assert order[..k] == order[..k - 1] + [b];
      if g.blocks[b].source {
        SetupStep(g, setup, preset, st, order[..k - 1], done, b);
        st := SetupOuts(g, setup, st, b);
        WiresDistinct(g);
        CallsDistinct(g.wires, b);
        st, done := DeliverAll(g, setup, preset, st, order, k, done, Calls(g.wires, b), |Calls(g.wires, b)|);
      } else {
        SkipStep(g, setup, preset, st, order[..k - 1], done, b);
        NoCalls(g, b);
      }
    }
    if k == |order| {
      assert order[..k] == order;
      ReachedEnd(g, setup, preset, st, order, done);
    }
  }

  lemma NoCalls(g: Graph, b: Name)
    requires Valid(g) && b in g.blocks && !g.blocks[b].source
    ensures forall w :: w in g.wires ==> w.src != b
  {
    forall w | w in g.wires ensures w.src != b {
      assert WireFits(g, w);
    }
  }

  lemma {:induction false} DeliverAll(g: Graph, setup: Setup, preset: Wiring, st: Wiring, order: seq<Name>, k: nat,
                                      done: seq<Wire>, calls: seq<Wire>, j: nat) returns (st1: Wiring, done1: seq<Wire>)
    requires Valid(g) && PortsUsedOnce(g) && Complete(g, preset) && SetupTotal(g, setup) && Placement(g, order) && 0 < k <= |order|
    requires Reached(g, setup, preset, st, order[..k], done) && j <= |calls| && Distinct(calls)
    requires forall w :: w in calls ==> w in g.wires && w.src == order[k - 1] && w !in done
    ensures Reached(g, setup, preset, st1, order[..k], done1) && done1 == done + calls[..j]
  {
    if j == 0 {
      st1, done1 := st, done;
      assert done == done + calls[..0];
    } else {
      st1, done1 := DeliverAll(g, setup, preset, st, order, k, done, calls, j - 1);
      var w := calls[j - 1];
      GoesBeyond(g, order, k, w);
      NotYetCalled(done, calls, j - 1);
      WireStep(g, setup, preset, st1, order[..k], done1, w);
      st1, done1 := Deliver(st1, w), done1 + [w];
    }
  }

  lemma NotYetCalled(done: seq<Wire>, calls: seq<Wire>, j: nat)
    requires j < |calls| && Distinct(calls) && calls[j] !in done
    ensures calls[j] !in done + calls[..j]
    ensures done + calls[..j] + [calls[j]] == done + calls[..j + 1]
  {
  }

  /** A wire out of the block that was set up last leads to a block that was not. */
  lemma GoesBeyond(g: Graph, order: seq<Name>, k: nat, w: Wire)
    requires Placement(g, order) && 0 < k <= |order| && w in g.wires && w.src == order[k - 1]
    ensures w.dst !in order[..k] && w.src in order[..k]
  {
    assert Edge(g, w.src, w.dst);
    forall i | 0 <= i < k ensures order[i] != w.dst {
      assert !Edge(g, order[k - 1], order[i]);
    }
  }
}
