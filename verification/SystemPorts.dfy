/** The ports and signal buffers of a system, as System::initialize wires them up. */
module SystemPorts {
  import opened BlockGraph
  import opened Ports
  import opened Propagation
  import ExecMatrix
  import SystemInit

  /** The two ends of v are other ports than those of w. */
  predicate OtherPorts(v: Wire, w: Wire) {
    Src(v) != Src(w) && Dst(v) != Dst(w)
  }

  /** Every wire fits the presets of its in port, given the attributes of its out port. */
  ghost predicate AllFit(wires: seq<Wire>, preset: Wiring, st: Wiring) {
    forall w :: w in wires ==> WireAgrees(preset, st, w)
  }

  predicate WireAgrees(preset: Wiring, st: Wiring, w: Wire) {
    Src(w) in st.outs && Dst(w) in preset.ins && Matches(st.outs[Src(w)], preset.ins[Dst(w)])
  }

  /** Propagation has come as far as `seen` and `done` say, without a failure. */
  ghost predicate Progress(g: Graph, setup: Setup, preset: Wiring, st: Wiring, seen: seq<Name>, done: seq<Wire>)
    requires Complete(g, preset) && SetupTotal(g, setup)
  {
    && Reached(g, setup, preset, st, seen, done) && ProperSeen(g, st, seen) && AllFit(done, preset, st)
    && Distinct(done) && InCallOrder(g, seen, done)
  }

  /** Every out port is properly set up, and every connection fits. */
  ghost predicate Settled(g: Graph, preset: Wiring, s: Wiring)
    requires Complete(g, s)
  {
    AllProper(g, s) && AllFit(g.wires, preset, s)
  }

  /** The out ports of these blocks are set, and their connections fit. */
  ghost predicate SettledFor(g: Graph, preset: Wiring, s: Wiring, blocks: seq<Name>)
    requires Complete(g, s)
  {
    ProperSeen(g, s, blocks) && forall w :: w in g.wires && w.src in blocks ==> WireAgrees(preset, s, w)
  }

  /** An out port of the block is not set. */
  ghost predicate UnsetAt(g: Graph, s: Wiring, b: Name) {
    exists pin :: IsOut(g, pin) && pin.block == b && pin in s.outs && !Proper(s.outs[pin])
  }

  /** The block is set up, and of its connections this is the first that does not fit. */
  ghost predicate FirstMisfit(g: Graph, preset: Wiring, s: Wiring, b: Name, w: Wire, r: Outcome)
    requires Complete(g, s)
  {
    && ProperSeen(g, s, [b])
    && w in g.wires && w.src == b && Src(w) in s.outs && Dst(w) in preset.ins
    && r != Connected && Reported(s.outs[Src(w)], preset.ins[Dst(w)], r)
    && forall v :: v in g.wires && v.src == b && Precedes(g.wires, v, w) ==> WireAgrees(preset, s, v)
  }

  /** All is settled for the blocks before number k, and what goes wrong at this block first is reported. */
  ghost predicate FailsAt(g: Graph, preset: Wiring, s: Wiring, order: seq<Name>, k: nat, r: Outcome)
    requires Complete(g, s)
  {
    && k < |order| && SettledFor(g, preset, s, order[..k])
    && ((r == AttributeNotSet && UnsetAt(g, s, order[k])) || exists w :: FirstMisfit(g, preset, s, order[k], w, r))
  }

  ghost predicate FirstFailure(g: Graph, preset: Wiring, s: Wiring, order: seq<Name>, r: Outcome)
    requires Complete(g, s)
  {
    exists k :: FailsAt(g, preset, s, order, k, r)
  }

  /** A failure that every solution explains: it is the first, in the order of the calls. */
  ghost predicate Refuted(g: Graph, setup: Setup, preset: Wiring, order: seq<Name>, r: Outcome)
    requires Complete(g, preset) && SetupTotal(g, setup)
  {
    forall s :: Solves(g, setup, preset, s) ==> !Settled(g, preset, s) && FirstFailure(g, preset, s, order, r)
  }

  /** There is only one first failure. */
  lemma FailureDetermined(g: Graph, preset: Wiring, s: Wiring, order: seq<Name>, r: Outcome, q: Outcome)
    requires Complete(g, s) && FirstFailure(g, preset, s, order, r) && FirstFailure(g, preset, s, order, q)
    ensures r == q
  {
    var i: nat :| FailsAt(g, preset, s, order, i, r);
    var j: nat :| FailsAt(g, preset, s, order, j, q);
    if i < j {
      NotSettledAt(g, preset, s, order, i, j, r);
      assert false;
    } else if j < i {
      NotSettledAt(g, preset, s, order, j, i, q);
      assert false;
    } else {
      SameBlockSameFailure(g, preset, s, order[i], r, q);
    }
  }

  lemma NotSettledAt(g: Graph, preset: Wiring, s: Wiring, order: seq<Name>, i: nat, j: nat, r: Outcome)
    requires Complete(g, s) && i < j < |order| && FailsAt(g, preset, s, order, i, r)
    ensures !SettledFor(g, preset, s, order[..j])
  {
    assert order[i] in order[..j];
  }

  lemma SameBlockSameFailure(g: Graph, preset: Wiring, s: Wiring, b: Name, r: Outcome, q: Outcome)
    requires Complete(g, s)
    requires (r == AttributeNotSet && UnsetAt(g, s, b)) || exists w :: FirstMisfit(g, preset, s, b, w, r)
    requires (q == AttributeNotSet && UnsetAt(g, s, b)) || exists w :: FirstMisfit(g, preset, s, b, w, q)
    ensures r == q
  {
    if !UnsetAt(g, s, b) {
      var w :| FirstMisfit(g, preset, s, b, w, r);
      var v :| FirstMisfit(g, preset, s, b, v, q);
      var i :| 0 <= i < |g.wires| && g.wires[i] == w;
      var j :| 0 <= j < |g.wires| && g.wires[j] == v;
      assert i < j ==> Precedes(g.wires, w, v);
      assert j < i ==> Precedes(g.wires, v, w);
      if w == v {
        var once := OneOutcome(s.outs[Src(w)], preset.ins[Dst(w)]);
      } else {
        assert false;
      }
    }
  }

  /** The calls of all blocks before number k have been made. */
  ghost predicate CalledBefore(g: Graph, order: seq<Name>, k: nat, done: seq<Wire>)
    requires k <= |order|
  {
    forall v :: v in g.wires && v.src in order[..k] ==> v in done
  }

  lemma NotYetMade(g: Graph, done: seq<Wire>, w: Wire)
    requires PortsUsedOnce(g) && w in g.wires && NextCall(g, done, w)
    ensures w !in done
  {
    WiresDistinct(g);
    if w in done {
      PrecedesOneWay(g.wires, w, w);
      assert false;
    }
  }

  lemma OthersDiffer(g: Graph, done: seq<Wire>, w: Wire)
    requires PortsUsedOnce(g) && w in g.wires && w !in done && forall v :: v in done ==> v in g.wires
    ensures forall v :: v in done ==> OtherPorts(v, w)
  {
    forall v | v in done ensures OtherPorts(v, w) {
      if !OtherPorts(v, w) {
        SameWire(g, v, w);
      }
    }
  }

  lemma SetupProgress(g: Graph, setup: Setup, preset: Wiring, st: Wiring, seen: seq<Name>, done: seq<Wire>, b: Name)
    requires Complete(g, preset) && SetupTotal(g, setup) && Progress(g, setup, preset, st, seen, done)
    requires b in g.blocks && g.blocks[b].source && b !in seen
    requires ProperMap(setup(b, Inputs(g, st.ins, b)))
    ensures Progress(g, setup, preset, SetupOuts(g, setup, st, b), seen + [b], done)
  {
    SetupStep(g, setup, preset, st, seen, done, b);
    InCallOrderMore(g, seen, b, done);
    assert ProperSeen(g, SetupOuts(g, setup, st, b), seen + [b]);
    forall w | w in done ensures WireAgrees(preset, SetupOuts(g, setup, st, b), w) {
      assert WireAgrees(preset, st, w);
    }
  }

  lemma WireProgress(g: Graph, setup: Setup, preset: Wiring, st: Wiring, seen: seq<Name>, done: seq<Wire>, w: Wire)
    requires Valid(g) && PortsUsedOnce(g)
    requires Complete(g, preset) && SetupTotal(g, setup) && Progress(g, setup, preset, st, seen, done)
    requires w in g.wires && w !in done && w.src in seen && w.dst !in seen && forall v :: v in done ==> Earlier(g, seen, v, w)
    requires Src(w) in st.outs && Dst(w) in st.ins
    ensures st.ins[Dst(w)] == preset.ins[Dst(w)]
    ensures Matches(st.outs[Src(w)], preset.ins[Dst(w)]) ==> Progress(g, setup, preset, Deliver(st, w), seen, done + [w])
  {
    WireStep(g, setup, preset, st, seen, done, w);
    if Matches(st.outs[Src(w)], preset.ins[Dst(w)]) {
      forall v | v in done + [w] ensures WireAgrees(preset, Deliver(st, w), v) {
        if v != w {
          assert WireAgrees(preset, st, v);
        }
      }
    }
  }

  lemma SetOne(outs: map<Pin, Attributes>, b: Name, names: seq<string>, p: string, attrs: map<string, Attributes>)
    requires Pin(b, p) in outs && p in attrs
    ensures PartlySet(outs, b, names + [p], attrs) == PartlySet(outs, b, names, attrs)[Pin(b, p) := attrs[p]]
  {
  }

  /** What propagation has passed is settled in the solution. */
  lemma PassedIsSettled(g: Graph, setup: Setup, preset: Wiring, st: Wiring, order: seq<Name>, k: nat, done: seq<Wire>, s: Wiring, i: nat)
    requires Valid(g) && Placement(g, order) && Complete(g, preset) && SetupTotal(g, setup) && i <= k <= |order|
    requires k <= i + 1 && Progress(g, setup, preset, st, order[..k], done) && CalledBefore(g, order, i, done)
    requires Solves(g, setup, preset, s)
    ensures forall pin :: IsOut(g, pin) && pin.block in order[..k] ==> st.outs[pin] == s.outs[pin]
    ensures SettledFor(g, preset, s, order[..i]) && ProperSeen(g, s, order[..k])
    ensures forall w :: w in done ==> WireAgrees(preset, s, w)
  {
    AgreesWithSolution(g, setup, preset, st, order, k, done, s, k);
    forall w | w in done ensures WireAgrees(preset, s, w) {
      assert WireAgrees(preset, st, w) && WireFits(g, w) && IsOut(g, Src(w));
    }
    forall pin | IsOut(g, pin) && pin.block in order[..i] ensures Proper(s.outs[pin]) {
      assert pin.block in order[..k];
    }
  }

  /** A connection that fails on the way is the first that fails in the solution. */
  lemma WireRefutes(g: Graph, setup: Setup, preset: Wiring, st: Wiring, order: seq<Name>, k: nat, done: seq<Wire>, w: Wire, r: Outcome)
    requires Valid(g) && Placement(g, order) && Complete(g, preset) && SetupTotal(g, setup) && 0 < k <= |order|
    requires Progress(g, setup, preset, st, order[..k], done) && CalledBefore(g, order, k - 1, done)
    requires w in g.wires && w.src == order[k - 1] && Src(w) in st.outs && Dst(w) in preset.ins && NextCall(g, done, w)
    requires r != Connected && Reported(st.outs[Src(w)], preset.ins[Dst(w)], r)
    ensures Refuted(g, setup, preset, order, r)
  {
    forall s | Solves(g, setup, preset, s) ensures !Settled(g, preset, s) && FirstFailure(g, preset, s, order, r) {
      PassedIsSettled(g, setup, preset, st, order, k, done, s, k - 1);
      assert IsOut(g, Src(w)) && Src(w).block in order[..k];
      assert Src(w) in s.outs && Reported(s.outs[Src(w)], preset.ins[Dst(w)], r);
      assert Proper(s.outs[Src(w)]) ==> !WireAgrees(preset, s, w);
      assert order[k - 1] in order[..k];
      assert FirstMisfit(g, preset, s, order[k - 1], w, r);
      assert FailsAt(g, preset, s, order, k - 1, r);
    }
  }

  /** An out port that a setup leaves without an attribute is without it in the solution. */
  lemma PortRefutes(g: Graph, setup: Setup, preset: Wiring, st: Wiring, order: seq<Name>, k: nat, done: seq<Wire>, p: string)
    requires Valid(g) && Placement(g, order) && Complete(g, preset) && SetupTotal(g, setup) && k < |order|
    requires Progress(g, setup, preset, st, order[..k], done) && CalledBefore(g, order, k, done)
    requires g.blocks[order[k]].source && p in PortNames(g, order[k])
    requires !Proper(setup(order[k], Inputs(g, st.ins, order[k]))[p])
    ensures Refuted(g, setup, preset, order, AttributeNotSet)
  {
    var b := order[k];
    forall s | Solves(g, setup, preset, s) ensures !Settled(g, preset, s) && FirstFailure(g, preset, s, order, AttributeNotSet) {
      PassedIsSettled(g, setup, preset, st, order, k, done, s, k);
      SameInputs(g, preset, st, done, s, order, k);
      assert SetUp(g, setup, s, b) && IsOut(g, Pin(b, p)) && Pin(b, p) in s.outs;
      assert FailsAt(g, preset, s, order, k, AttributeNotSet);
    }
  }

  /** Success exactly if the solution is settled, and then the ports hold it; otherwise the first failure is reported. */
  ghost predicate Propagated(g: Graph, setup: Setup, preset: Wiring, order: seq<Name>, st: Wiring, r: Outcome)
    requires Complete(g, preset) && SetupTotal(g, setup)
  {
    && (r == Connected ==> Solves(g, setup, preset, st))
    && (forall s :: Solves(g, setup, preset, s) ==> (r == Connected <==> Settled(g, preset, s)))
    && (r != Connected ==> Refuted(g, setup, preset, order, r))
  }

  /** Propagation never meets an unset attribute if all in ports are driven or preset, and setups keep attributes proper. */
  lemma NeverUnset(g: Graph, setup: Setup, preset: Wiring, order: seq<Name>, st: Wiring, r: Outcome)
    requires Valid(g) && PortsUsedOnce(g) && Complete(g, preset) && SetupTotal(g, setup) && Placement(g, order)
    requires Propagated(g, setup, preset, order, st, r)
    requires KeepsProper(g, setup) && forall pin :: IsIn(g, pin) && Undriven(g.wires, pin) ==> Proper(preset.ins[pin])
    ensures r != AttributeNotSet
  {
    var s, done := SolutionExists(g, setup, preset, order, |order|);
    DrivenIsProper(g, setup, preset, order, s);
    assert r != Connected ==> FirstFailure(g, preset, s, order, r);
  }

  class PortTable {
    const graph: Graph
    const outs: map<Pin, OutPort>
    const ins: map<Pin, InPort>
    ghost const outPorts: set<OutPort>
    ghost const inPorts: set<InPort>
    var buffers: seq<Buffer>
    var bufferCount: nat

    constructor (g: Graph, o: map<Pin, OutPort>, i: map<Pin, InPort>)
      ensures graph == g && outs == o && ins == i && outPorts == o.Values && inPorts == i.Values && buffers == [] && bufferCount == 0
    {
      graph, outs, ins := g, o, i;
      outPorts, inPorts := o.Values, i.Values;
      buffers, bufferCount := [], 0;
    }

    /** The port objects, as sets for the frames. */
    ghost predicate Listed() {
      (forall pin :: pin in outs ==> outs[pin] in outPorts) && (forall pin :: pin in ins ==> ins[pin] in inPorts)
    }

    /** One port object for every port of the graph. */
    ghost predicate Shape() {
      && Listed()
      && (forall pin :: pin in ins <==> IsIn(graph, pin))
      && (forall pin :: pin in outs <==> IsOut(graph, pin))
      && (forall p, q :: p in ins && q in ins && ins[p] == ins[q] ==> p == q)
      && (forall p, q :: p in outs && q in outs && outs[p] == outs[q] ==> p == q)
    }

    ghost function State(): Wiring
      requires Listed()
      reads outPorts, inPorts
    {
      Wiring(map pin | pin in ins :: ins[pin].attr, map pin | pin in outs :: outs[pin].attr)
    }

    /** Buffer k belongs to this wire: both ends use it, and it has the type and size of the out port. */
    ghost predicate HasBuffer(w: Wire, k: nat)
      requires Listed()
      reads this, outPorts, inPorts
    {
      && Src(w) in outs && Dst(w) in ins && k < |buffers|
      && outs[Src(w)].bufferId == k && outs[Src(w)].signal == Some(k) && ins[Dst(w)].signal == Some(k)
      && outs[Src(w)].receiver == ins[Dst(w)]
      && buffers[k] == Buffer(outs[Src(w)].attr.kind, outs[Src(w)].attr.frameSize)
    }

    /** The buffers belong one to one to the connect calls made so far. */
    ghost predicate Buffered(done: seq<Wire>)
      requires Listed()
      reads this, outPorts, inPorts
    {
      bufferCount == |buffers| == |done| && forall k :: 0 <= k < |done| ==> HasBuffer(done[k], k)
    }

    method CreateSignalBuffer(kind: Kind, size: nat) returns (id: nat)
      requires bufferCount == |buffers|
      modifies this`buffers, this`bufferCount
      ensures bufferCount == |buffers| && id == old(bufferCount)
      ensures buffers == old(buffers) + [Buffer(kind, size)]
    {
      buffers := buffers + [Buffer(kind, size)];
      id := bufferCount;
      bufferCount := bufferCount + 1;
    }

    /** Connects the two ports of a call and gives them a buffer of their own. */
    method MakeConnection(w: Wire, ghost done: seq<Wire>) returns (r: Outcome)
      requires Shape() && IsOut(graph, Src(w)) && IsIn(graph, Dst(w))
      requires Buffered(done) && forall v :: v in done ==> OtherPorts(v, w)
      modifies this`buffers, this`bufferCount, outPorts, inPorts
      ensures Reported(old(outs[Src(w)].attr), old(ins[Dst(w)].attr), r)
      ensures r == Connected ==> State() == Deliver(old(State()), w) && Buffered(done + [w])
      ensures r != Connected ==> State() == old(State()) && Buffered(done)
    {
      var source, sink := outs[Src(w)], ins[Dst(w)];
      r := ConnectPorts(w, source, sink, done);
      if r == Connected {
        AttachBuffer(w, source, sink, done);
      }
    }

    method ConnectPorts(w: Wire, source: OutPort, sink: InPort, ghost done: seq<Wire>) returns (r: Outcome)
      requires Shape() && Src(w) in outs && Dst(w) in ins && source == outs[Src(w)] && sink == ins[Dst(w)]
      requires Buffered(done) && forall v :: v in done ==> OtherPorts(v, w)
      modifies source`bufferId, source`receiver, sink`attr
      ensures Reported(source.attr, old(sink.attr), r) && Buffered(done)
      ensures r == Connected ==> State() == Deliver(old(State()), w) && source.bufferId == bufferCount && source.receiver == sink
      ensures r != Connected ==> State() == old(State())
    {
      r := source.Connect(sink, bufferCount);
      forall k | 0 <= k < |done| ensures HasBuffer(done[k], k) {
        assert old(HasBuffer(done[k], k)) && OtherPorts(done[k], w);
      }
    }

    method AttachBuffer(w: Wire, source: OutPort, sink: InPort, ghost done: seq<Wire>)
      requires Shape() && Src(w) in outs && Dst(w) in ins && source == outs[Src(w)] && sink == ins[Dst(w)]
      requires Buffered(done) && forall v :: v in done ==> OtherPorts(v, w)
      requires source.bufferId == bufferCount && source.receiver == sink
      modifies this`buffers, this`bufferCount, source`signal, sink`signal
      ensures Buffered(done + [w]) && State() == old(State())
    {
      var id := CreateSignalBuffer(source.attr.kind, source.attr.frameSize);
      SetBufferPtrs(source, sink, bufferCount - 1);
      forall k | 0 <= k < |done| ensures HasBuffer(done[k], k) {
        assert old(HasBuffer(done[k], k)) && OtherPorts(done[k], w);
      }
    }

    method SetBufferPtrs(source: OutPort, sink: InPort, k: nat)
      modifies source`signal, sink`signal
      ensures source.signal == sink.signal == Some(k)
    {
      source.signal, sink.signal := Some(k), Some(k);
    }

    /** add_port with the name of an out port that exists: its attributes are set in place, unless one of them is not set. */
    method AddPort(pin: Pin, a: Attributes, ghost done: seq<Wire>) returns (ok: bool)
      requires Shape() && pin in outs && Buffered(done) && forall v :: v in done ==> Src(v) != pin
      modifies outs[pin]
      ensures ok == Proper(a) && Buffered(done)
      ensures State() == if ok then old(State()).(outs := old(State()).outs[pin := a]) else old(State())
    {
      if a.kind == Empty || a.ts <= 0.0 || a.frameSize == 0 {
        return false;
      }
      outs[pin].attr := a;
      forall k | 0 <= k < |done| ensures HasBuffer(done[k], k) {
        assert old(HasBuffer(done[k], k));
      }
      return true;
    }

    /** call_setup_output_ports of a source block. */
    method SetupOutputPorts(b: Name, setup: Setup, ghost done: seq<Wire>) returns (ok: bool)
      requires Shape() && b in graph.blocks && graph.blocks[b].source && SetupTotal(graph, setup)
      requires Buffered(done) && forall v :: v in done ==> v.src != b
      modifies outPorts
      ensures ok ==> State() == SetupOuts(graph, setup, old(State()), b) && Buffered(done)
      ensures ok <==> ProperMap(setup(b, Inputs(graph, old(State()).ins, b)))
    {
      var attrs := CallSetup(b, setup);
      AllNameable(b, attrs);
      ok := SetPorts(b, graph.blocks[b].outPorts, attrs, done);
    }

    ghost predicate Nameable(b: Name, names: seq<string>, attrs: map<string, Attributes>) {
      && (forall p :: p in names ==> Pin(b, p) in outs && p in attrs)
      && (forall p :: p in attrs ==> p in names)
    }

    /** The block's own setup_output_ports, which reads its in ports. */
    function CallSetup(b: Name, setup: Setup): (attrs: map<string, Attributes>)
      requires Shape() && b in graph.blocks
      reads outPorts, inPorts
      ensures attrs == setup(b, Inputs(graph, State().ins, b))
    {
      var inputs := map p | p in graph.blocks[b].inPorts && Pin(b, p) in ins :: ins[Pin(b, p)].attr;
      assert inputs == Inputs(graph, State().ins, b);
      setup(b, inputs)
    }

    lemma AllNameable(b: Name, attrs: map<string, Attributes>)
      requires Shape() && b in graph.blocks && graph.blocks[b].source && attrs.Keys == PortNames(graph, b)
      ensures Nameable(b, graph.blocks[b].outPorts, attrs)
    {
      forall p | p in graph.blocks[b].outPorts ensures Pin(b, p) in outs && p in attrs {
        assert p in PortNames(graph, b);
        assert IsOut(graph, Pin(b, p));
      }
    }

    /** One add_port call for each out port, up to the first that fails. */
    method SetPorts(b: Name, names: seq<string>, attrs: map<string, Attributes>, ghost done: seq<Wire>) returns (ok: bool)
      requires Shape() && Buffered(done) && forall v :: v in done ==> v.src != b
      requires Nameable(b, names, attrs)
      modifies outPorts
      ensures ok ==> State() == WithOuts(old(State()), b, names, attrs) && Buffered(done)
      ensures ok <==> ProperMap(attrs)
    {
      ghost var st := State();
      assert PartlySet(st.outs, b, [], attrs) == st.outs;
      for k := 0 to |names|
        invariant Buffered(done) && forall p :: p in names[..k] ==> Proper(attrs[p])
        invariant State() == Wiring(st.ins, PartlySet(st.outs, b, names[..k], attrs))
      {
        assert names[..k + 1] == names[..k] + [names[k]];
        ok := SetPort(b, names[..k], names[k], attrs, st, done);
        if !ok {
          return;
        }
      }
      assert names[..|names|] == names;
      ok := true;
    }

    method SetPort(b: Name, ghost before: seq<string>, p: string, attrs: map<string, Attributes>, ghost st: Wiring, ghost done: seq<Wire>)
      returns (ok: bool)
      requires Shape() && Buffered(done) && forall v :: v in done ==> v.src != b
      requires Pin(b, p) in outs && p in attrs && Pin(b, p) in st.outs
      requires State() == Wiring(st.ins, PartlySet(st.outs, b, before, attrs))
      modifies outPorts
      ensures ok == Proper(attrs[p])
      ensures ok ==> Buffered(done) && State() == Wiring(st.ins, PartlySet(st.outs, b, before + [p], attrs))
    {
      SetOne(st.outs, b, before, p, attrs);
      ok := AddPort(Pin(b, p), attrs[p], done);
    }

    ghost predicate Ready(setup: Setup, preset: Wiring, order: seq<Name>) {
      && Shape() && Valid(graph) && PortsUsedOnce(graph) && Placement(graph, order)
      && Complete(graph, preset) && SetupTotal(graph, setup)
    }

    /** The connect calls of one block, in the order they were recorded, up to the first that throws. */
    method MakeConnections(calls: seq<Wire>, setup: Setup, ghost preset: Wiring, ghost order: seq<Name>, ghost k: nat, ghost done: seq<Wire>)
      returns (r: Outcome, ghost done1: seq<Wire>)
      requires Ready(setup, preset, order) && 0 < k <= |order|
      requires Progress(graph, setup, preset, State(), order[..k], done) && Buffered(done)
      requires calls == Calls(graph.wires, order[k - 1]) && forall v :: v in done ==> v.src != order[k - 1]
      requires CalledBefore(graph, order, k - 1, done)
      modifies this`buffers, this`bufferCount, outPorts, inPorts
      ensures r == Connected ==> Progress(graph, setup, preset, State(), order[..k], done1) && Buffered(done1) && done1 == done + calls
      ensures r != Connected ==> Refuted(graph, setup, preset, order, r)
    {
      done1, r := done, Connected;
      assert done + calls[..0] == done;
      WiresDistinct(graph);
      CallsDistinct(graph.wires, order[k - 1]);
      for j := 0 to |calls|
        invariant Progress(graph, setup, preset, State(), order[..k], done1) && Buffered(done1) && done1 == done + calls[..j]
        invariant r == Connected
      {
        CallsUpTo(graph, done, order[k - 1], j);
        r := MakeOne(calls[j], setup, preset, order, k, done1);
        if r != Connected {
          return;
        }
        NotYetCalled(done, calls, j);
        done1 := done1 + [calls[j]];
      }
      assert calls[..|calls|] == calls;
    }

    method MakeOne(w: Wire, setup: Setup, ghost preset: Wiring, ghost order: seq<Name>, ghost k: nat, ghost done: seq<Wire>)
      returns (r: Outcome)
      requires Ready(setup, preset, order) && 0 < k <= |order|
      requires Progress(graph, setup, preset, State(), order[..k], done) && Buffered(done)
      requires w in graph.wires && w.src == order[k - 1] && NextCall(graph, done, w)
      requires CalledBefore(graph, order, k - 1, done)
      modifies this`buffers, this`bufferCount, outPorts, inPorts
      ensures r == Connected ==> Progress(graph, setup, preset, State(), order[..k], done + [w]) && Buffered(done + [w])
      ensures r != Connected ==> Refuted(graph, setup, preset, order, r)
    {
      ghost var st := State();
      GoesBeyond(graph, order, k, w);
      assert WireFits(graph, w);
      NextComesLast(graph, order, k, done, w);
      NotYetMade(graph, done, w);
      WireProgress(graph, setup, preset, st, order[..k], done, w);
      OthersDiffer(graph, done, w);
      r := MakeConnection(w, done);
      if r != Connected {
        WireRefutes(graph, setup, preset, st, order, k, done, w, r);
      }
    }

    /** Different connections never share a buffer, and there is no other buffer. */
    lemma BuffersOneToOne(done: seq<Wire>, w: Wire, v: Wire)
      requires Listed() && Buffered(done) && Distinct(done) && w in done && v in done
      ensures outs[Src(w)].signal == ins[Dst(w)].signal
      ensures outs[Src(w)].signal == outs[Src(v)].signal <==> w == v
      ensures var id, a := outs[Src(w)].bufferId, outs[Src(w)].attr;
              id < |buffers| && outs[Src(w)].signal == Some(id) && buffers[id].kind == a.kind && buffers[id].size == a.frameSize
      ensures bufferCount == |buffers| && forall k :: 0 <= k < |buffers| ==> HasBuffer(done[k], k)
    {
      var i :| 0 <= i < |done| && done[i] == w;
      var j :| 0 <= j < |done| && done[j] == v;
      assert HasBuffer(done[i], i) && HasBuffer(done[j], j);
    }

    /** The buffer ids rise in the order of the calls. */
    lemma IdsRise(order: seq<Name>, done: seq<Wire>, w: Wire, v: Wire)
      requires Listed() && Buffered(done) && InCallOrder(graph, order, done) && w in done && v in done
      requires Distinct(order) && Distinct(graph.wires)
      ensures outs[Src(w)].bufferId < outs[Src(v)].bufferId <==> Earlier(graph, order, w, v)
    {
      var i :| 0 <= i < |done| && done[i] == w;
      var j :| 0 <= j < |done| && done[j] == v;
      assert HasBuffer(done[i], i) && HasBuffer(done[j], j);
      if Earlier(graph, order, w, v) {
        EarlierOneWay(graph, order, w, v);
      }
    }

    /** The visit of one block: a Source sets up its out ports and makes its connect calls. */
    method PropagateBlock(b: Name, setup: Setup, ghost preset: Wiring, ghost order: seq<Name>, ghost k: nat, ghost done: seq<Wire>)
      returns (r: Outcome, ghost done1: seq<Wire>)
      requires Ready(setup, preset, order) && k < |order| && b == order[k]
      requires Progress(graph, setup, preset, State(), order[..k], done) && Buffered(done)
      requires CalledBefore(graph, order, k, done)
      modifies this`buffers, this`bufferCount, outPorts, inPorts
      ensures r == Connected ==> Progress(graph, setup, preset, State(), order[..k + 1], done1) && Buffered(done1)
      ensures r == Connected ==> CalledBefore(graph, order, k + 1, done1)
      ensures r != Connected ==> Refuted(graph, setup, preset, order, r)
    {
      assert order[..k + 1] == order[..k] + [b];
      if graph.blocks[b].source {
        ghost var st := State();
        var ok := SetupOutputPorts(b, setup, done);
        if !ok {
          ghost var attrs := setup(b, Inputs(graph, st.ins, b));
          ghost var p :| p in attrs && !Proper(attrs[p]);
          PortRefutes(graph, setup, preset, st, order, k, done, p);
          return AttributeNotSet, done;
        }
        SetupProgress(graph, setup, preset, st, order[..k], done, b);
        r, done1 := MakeConnections(Calls(graph.wires, b), setup, preset, order, k + 1, done);
      } else {
        SkipStep(graph, setup, preset, State(), order[..k], done, b);
        InCallOrderMore(graph, order[..k], b, done);
        NoCalls(graph, b);
        r, done1 := Connected, done;
      }
    }

    /** propagate_signal_attributes, over the first block of every stage. */
    method PropagateSignalAttributes(stages: seq<ExecMatrix.Stage>, setup: Setup, ghost order: seq<Name>) returns (r: Outcome, ghost done: seq<Wire>)
      requires Shape() && stages == ExecMatrix.Singles(order) && Ready(setup, State(), order) && Buffered([])
      modifies this`buffers, this`bufferCount, outPorts, inPorts
      ensures Propagated(graph, setup, old(State()), order, State(), r)
      ensures r == Connected ==> Buffered(done) && Distinct(done) && forall w :: w in done <==> w in graph.wires
      ensures r == Connected ==> InCallOrder(graph, order, done)
    {
      ghost var preset := State();
      ReachedStart(graph, setup, preset);
      r, done := Connected, [];
      for k := 0 to |stages|
        invariant Ready(setup, preset, order) && r == Connected
        invariant Progress(graph, setup, preset, State(), order[..k], done) && Buffered(done)
        invariant CalledBefore(graph, order, k, done)
      {
        r, done := PropagateBlock(stages[k][0][0], setup, preset, order, k, done);
        if r != Connected {
          return;
        }
      }
      assert order[..|order|] == order;
      ReachedEnd(graph, setup, preset, State(), order, done);
      forall s | Solves(graph, setup, preset, s) ensures Settled(graph, preset, s) {
        SolutionUnique(graph, setup, preset, order, s, State());
      }
    }
  }

  /** What placing leaves for an acyclic graph is an order that propagation can follow. */
  lemma PlacedIsPlacement(g: Graph, order: seq<Name>)
    requires Acyclic(g) && (Topological(g, order) <==> Acyclic(g)) && Distinct(order) && Covers(g, order)
    requires forall b :: b in order <==> SystemInit.Wanted(g, b)
    ensures Placement(g, order)
  {
  }
}
