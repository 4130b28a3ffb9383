/** Blocks that compute signals from signals: what one pass over a schedule delivers through the buffers. */
module Dataflow {
  import opened BlockGraph
  import Sequences
  import ExecMatrix
  import SystemInit
  import opened BlockSemantics
  import Schedule
  import SystemRun
  import Memoryless

  /** What a block computes from its own state and its in signals, the signals it puts out, and the state it keeps. */
  datatype Behaviour<!V> = Behaviour(compute: (Name, V, Store<V>) -> V, emit: (V, Wire) -> V, finish: V -> V)

  /** The signals at the in ports of a block. */
  function Incoming<V>(b: Name, s: Store<V>): Store<V> {
    map l | l in s && l.Buffer? && l.wire.dst == b :: s[l]
  }

  /** process() in three steps: compute, fill the out buffers, finish. The second step tries to write all buffers in view. */
  function FlowStep<V>(f: Behaviour<V>, a: Action, view: Store<V>): Store<V> {
    if Own(a.block) !in view then view else
      var own := view[Own(a.block)];
      if a.op == 0 then view[Own(a.block) := f.compute(a.block, own, Incoming(a.block, view))]
      else if a.op == 1 then map l | l in view :: if l.Buffer? then f.emit(own, l.wire) else view[l]
      else view[Own(a.block) := f.finish(own)]
  }

  function Flow<V>(f: Behaviour<V>): Machine<V> {
    Machine((b: Name) => 3, (a: Action, view: Store<V>) => FlowStep(f, a, view))
  }

  /** From the state it had before the pass and the signals that are at its in ports after it, b computed what it put out. */
  ghost predicate DeliveredBy<V>(f: Behaviour<V>, b: Name, s: Store<V>, r: Store<V>)
    requires Own(b) in s && s.Keys == r.Keys
  {
    var c := f.compute(b, s[Own(b)], Incoming(b, r));
    r[Own(b)] == f.finish(c) && forall w :: Buffer(w) in r && w.src == b ==> r[Buffer(w)] == f.emit(c, w)
  }

  /** The states of other blocks and the signals of other blocks are as before. */
  ghost predicate RestKept<V>(order: seq<Name>, s: Store<V>, r: Store<V>)
    requires s.Keys == r.Keys
  {
    && (forall b :: Own(b) in s && b !in order ==> r[Own(b)] == s[Own(b)])
    && (forall w :: Buffer(w) in s && w.src !in order ==> r[Buffer(w)] == s[Buffer(w)])
  }

  /** The delivery law of a pass over the given blocks. */
  ghost predicate Delivered<V>(f: Behaviour<V>, order: seq<Name>, s: Store<V>, r: Store<V>) {
    s.Keys == r.Keys && RestKept(order, s, r) && forall b :: b in order ==> Own(b) in s && DeliveredBy(f, b, s, r)
  }

  ghost predicate Complete<V>(order: seq<Name>, s: Store<V>) {
    forall b :: b in order ==> Own(b) in s
  }

  // ---- one block ----

  lemma ThreeSteps<V>(f: Behaviour<V>, b: Name, s: Store<V>)
    ensures Run(Flow(f), Process(Flow(f), b), s)
         == Perform(Flow(f), Action(b, 2), Perform(Flow(f), Action(b, 1), Perform(Flow(f), Action(b, 0), s)))
  {
    var m := Flow(f);
    var t := Process(m, b);
    assert t == [Action(b, 0), Action(b, 1), Action(b, 2)];
    assert t[1..] == [Action(b, 1), Action(b, 2)] && t[1..][1..] == [Action(b, 2)];
    RunOne(m, Action(b, 2), Perform(m, Action(b, 1), Perform(m, Action(b, 0), s)));
  }

  lemma Computes<V>(f: Behaviour<V>, b: Name, s: Store<V>)
    requires Own(b) in s
    ensures Perform(Flow(f), Action(b, 0), s) == s[Own(b) := f.compute(b, s[Own(b)], Incoming(b, s))]
  {
    assert Incoming(b, View(b, s)) == Incoming(b, s);
  }

  lemma Emits<V>(f: Behaviour<V>, b: Name, s: Store<V>)
    requires Own(b) in s
    ensures Perform(Flow(f), Action(b, 1), s)
         == map l | l in s :: if l.Buffer? && l.wire.src == b then f.emit(s[Own(b)], l.wire) else s[l]
  {
  }

  lemma Finishes<V>(f: Behaviour<V>, b: Name, s: Store<V>)
    requires Own(b) in s
    ensures Perform(Flow(f), Action(b, 2), s) == s[Own(b) := f.finish(s[Own(b)])]
  {
  }

  /** The store with the out signals of a block whose computed value is c, and with the state it keeps. */
  function PutOut<V>(f: Behaviour<V>, b: Name, c: V, s: Store<V>): Store<V> {
    map l | l in s :: if l == Own(b) then f.finish(c) else if l.Buffer? && l.wire.src == b then f.emit(c, l.wire) else s[l]
  }

  lemma OneCall<V>(f: Behaviour<V>, b: Name, s: Store<V>)
    requires Own(b) in s
    ensures Run(Flow(f), Process(Flow(f), b), s) == PutOut(f, b, f.compute(b, s[Own(b)], Incoming(b, s)), s)
  {
    ThreeSteps(f, b, s);
    Computes(f, b, s);
    var s1 := Perform(Flow(f), Action(b, 0), s);
    Emits(f, b, s1);
    var s2 := Perform(Flow(f), Action(b, 1), s1);
    Finishes(f, b, s2);
    ThreeWrites(f, b, f.compute(b, s[Own(b)], Incoming(b, s)), s, s1, s2);
  }

  lemma ThreeWrites<V>(f: Behaviour<V>, b: Name, c: V, s: Store<V>, s1: Store<V>, s2: Store<V>)
    requires Own(b) in s && s1 == s[Own(b) := c]
    requires s2 == map l | l in s1 :: if l.Buffer? && l.wire.src == b then f.emit(s1[Own(b)], l.wire) else s1[l]
    ensures s2[Own(b) := f.finish(s2[Own(b)])] == PutOut(f, b, c, s)
  {
  }

  /** One call of process() delivers, if the block does not feed itself. */
  lemma OneBlockDelivers<V>(f: Behaviour<V>, b: Name, s: Store<V>)
    requires Own(b) in s && forall w :: Buffer(w) in s ==> !(w.src == b && w.dst == b)
    ensures Delivered(f, [b], s, Run(Flow(f), Process(Flow(f), b), s))
  {
    OneCall(f, b, s);
    PutOutDelivers(f, b, s, PutOut(f, b, f.compute(b, s[Own(b)], Incoming(b, s)), s));
  }

  lemma PutOutDelivers<V>(f: Behaviour<V>, b: Name, s: Store<V>, r: Store<V>)
    requires Own(b) in s && forall w :: Buffer(w) in s ==> !(w.src == b && w.dst == b)
    requires r == PutOut(f, b, f.compute(b, s[Own(b)], Incoming(b, s)), s)
    ensures Delivered(f, [b], s, r)
  {
    assert Incoming(b, r) == Incoming(b, s);
  }

  // ---- a whole pass ----

  lemma FlowAppend<V>(f: Behaviour<V>, before: seq<Name>, b: Name, s: Store<V>)
    ensures Run(Flow(f), ProcessAll(Flow(f), before + [b]), s)
         == Run(Flow(f), Process(Flow(f), b), Run(Flow(f), ProcessAll(Flow(f), before), s))
  {
    ProcessAllAppend(Flow(f), before, [b]);
    Memoryless.OneBlock(Flow(f), b);
    RunAppend(Flow(f), ProcessAll(Flow(f), before), Process(Flow(f), b), s);
  }

  /** What the blocks before b have delivered stays delivered when b follows, and b has its say about the rest. */
  lemma OneMoreDelivers<V>(f: Behaviour<V>, before: seq<Name>, b: Name, s: Store<V>, s1: Store<V>, r: Store<V>)
    requires Delivered(f, before, s, s1) && Delivered(f, [b], s1, r) && Memoryless.Alike(before, s1, r) && b !in before
    ensures Delivered(f, before + [b], s, r)
  {
    var order := before + [b];
    assert b in [b];
    assert DeliveredBy(f, b, s1, r) && s1[Own(b)] == s[Own(b)];
    forall c | c in order ensures Own(c) in s && DeliveredBy(f, c, s, r) {
      if c in before {
        assert DeliveredBy(f, c, s, s1);
        SeesOwnWires(before, c, s1, r);
      }
    }
  }

  /** Stores that c cannot tell apart hold the same signals for c. */
  lemma SeesOwnWires<V>(before: seq<Name>, c: Name, s1: Store<V>, r: Store<V>)
    requires Memoryless.Alike(before, s1, r) && c in before
    ensures Incoming(c, r) == Incoming(c, s1)
    ensures forall l :: l in s1 && Visible(c, l) ==> r[l] == s1[l]
  {
    assert forall l :: Visible(c, l) ==> Memoryless.Seen(before, l);
  }

  /** After a pass in a dependency order, every block has computed from the very signals that the pass has delivered to it. */
  lemma {:induction false} PassDelivers<V>(g: Graph, f: Behaviour<V>, order: seq<Name>, s: Store<V>)
    requires Fits(g, s) && Topological(g, order) && Distinct(order) && Complete(order, s)
    ensures Delivered(f, order, s, Run(Flow(f), ProcessAll(Flow(f), order), s))
    decreases |order|
  {
    if order != [] {
      var k := |order| - 1;
      var before, b := order[..k], order[k];
      assert order == before + [b];
      TopologicalConcat(g, before, [b]);
      PassDelivers(g, f, before, s);
      FlowAppend(f, before, b, s);
      var s1 := Run(Flow(f), ProcessAll(Flow(f), before), s);
      FitsKept(g, Flow(f), ProcessAll(Flow(f), before), s);
      NoSelfWire(g, b, s1);
      OneBlockDelivers(f, b, s1);
      Memoryless.LaterBlockUnseen(g, Flow(f), before, b, s1);
      OneMoreDelivers(f, before, b, s, s1, Run(Flow(f), Process(Flow(f), b), s1));
    }
  }

  lemma NoSelfWire<V>(g: Graph, b: Name, s: Store<V>)
    requires Fits(g, s) && Topological(g, [b])
    ensures forall w :: Buffer(w) in s ==> !(w.src == b && w.dst == b)
  {
    assert !Edge(g, [b][0], [b][0]);
    forall w | Buffer(w) in s && w.src == b ensures w.dst != b {
      assert Buffer(w).wire in g.wires;
    }
  }

  /** The delivery law leaves nothing open: it fixes every state and every signal after the pass. */
  lemma DeliveryIsUnique<V>(g: Graph, f: Behaviour<V>, order: seq<Name>, s: Store<V>, r: Store<V>, q: Store<V>)
    requires Fits(g, s) && Topological(g, order) && Distinct(order)
    requires Delivered(f, order, s, r) && Delivered(f, order, s, q)
    ensures r == q
  {
    for k := 0 to |order|
      invariant forall i :: 0 <= i < k ==> SameFrom(order[i], r, q)
    {
      SameIncoming(g, order, k, s, r, q);
      assert DeliveredBy(f, order[k], s, r) && DeliveredBy(f, order[k], s, q);
    }
    forall l | l in s ensures r[l] == q[l] {
      var b := if l.Own? then l.block else l.wire.src;
      if b in order {
        var i :| 0 <= i < |order| && order[i] == b;
        assert SameFrom(order[i], r, q);
      }
    }
  }

  /** The two stores agree on the state of b and on the signals of b. */
  ghost predicate SameFrom<V>(b: Name, r: Store<V>, q: Store<V>) {
    && (Own(b) in r && Own(b) in q ==> r[Own(b)] == q[Own(b)])
    && (forall w :: Buffer(w) in r && Buffer(w) in q && w.src == b ==> r[Buffer(w)] == q[Buffer(w)])
  }

  lemma SameIncoming<V>(g: Graph, order: seq<Name>, k: nat, s: Store<V>, r: Store<V>, q: Store<V>)
    requires Fits(g, s) && Topological(g, order) && s.Keys == r.Keys == q.Keys && k < |order|
    requires RestKept(order, s, r) && RestKept(order, s, q)
    requires forall i :: 0 <= i < k ==> SameFrom(order[i], r, q)
    ensures Incoming(order[k], r) == Incoming(order[k], q)
  {
    forall l | l in s && l.Buffer? && l.wire.dst == order[k] ensures r[l] == q[l] {
      var w := l.wire;
      assert w in g.wires && Edge(g, w.src, w.dst);
      if w.src in order {
        var i :| 0 <= i < |order| && order[i] == w.src;
        assert i < k;
        assert SameFrom(order[i], r, q);
      } else {
        assert l == Buffer(w);
      }
    }
  }

  // ---- signals that travel ----

  /** Whatever its state, the block between the two connections passes the signal on. */
  ghost predicate Relays<V(!new)>(f: Behaviour<V>, v: Wire, w: Wire) {
    v.dst == w.src && forall own: V, signals: Store<V> :: Buffer(v) in signals ==> f.emit(f.compute(v.dst, own, signals), w) == signals[Buffer(v)]
  }

  /** A signal crosses any number of relaying blocks in one pass. */
  lemma {:induction false} SignalCrosses<V(!new)>(f: Behaviour<V>, order: seq<Name>, s: Store<V>, r: Store<V>, ws: seq<Wire>)
    requires Delivered(f, order, s, r) && ws != [] && forall i :: 0 <= i < |ws| ==> Buffer(ws[i]) in r && ws[i].dst in order
    requires forall i :: 0 <= i < |ws| - 1 ==> Relays(f, ws[i], ws[i + 1])
    ensures r[Buffer(ws[|ws| - 1])] == r[Buffer(ws[0])]
    decreases |ws|
  {
    if |ws| > 1 {
      var k := |ws| - 1;
      SignalCrosses(f, order, s, r, ws[..k]);
      var v, w := ws[k - 1], ws[k];
      assert Relays(f, ws[k - 1], ws[k - 1 + 1]) && Buffer(w) in r;
      assert DeliveredBy(f, v.dst, s, r);
      assert Buffer(v) in Incoming(v.dst, r);
    }
  }

  // ---- the system ----

  /** A run of a stage delivers, whatever the interleaving of its paths. */
  lemma StageDelivers<V>(g: Graph, f: Behaviour<V>, stage: ExecMatrix.Stage, t: seq<Action>, s: Store<V>)
    requires Fits(g, s) && ExecMatrix.PathsIndependent(g, stage) && Distinct(Sequences.Concat(stage))
    requires forall p :: 0 <= p < |stage| ==> Topological(g, stage[p])
    requires Complete(Sequences.Concat(stage), s) && Schedule.StageRun(Flow(f), stage, t)
    ensures Delivered(f, Sequences.Concat(stage), s, Run(Flow(f), t, s))
  {
    Schedule.StageRunIsSequential(g, Flow(f), stage, t, s);
    Schedule.IndependentPathsTopological(g, stage);
    PassDelivers(g, f, Sequences.Concat(stage), s);
  }

  /** However its threads are scheduled, a settled execution of an initialized system delivers. */
  lemma SystemDelivers<V>(g: Graph, f: Behaviour<V>, stages: seq<ExecMatrix.Stage>, allowed: bool, k: nat,
                          pass: seq<seq<seq<Action>>>, s: Store<V>)
    requires Schedule.Initialized(g, stages) && PortsUsedOnce(g) && Acyclic(g) && Fits(g, s)
    requires forall b :: SystemInit.Wanted(g, b) ==> Own(b) in s
    requires k >= 32 || !allowed || forall i :: 0 <= i < |stages| ==> |stages[i]| < 2
    requires Schedule.PassRun(Flow(f), stages, SystemRun.TurnsAt(stages, allowed, k), pass)
    ensures Delivered(f, ExecMatrix.Order(stages), s, Run(Flow(f), Sequences.Concat(Sequences.Concat(pass)), s))
  {
    var order := ExecMatrix.Order(stages);
    Schedule.SafeStagesRunnable(g, stages);
    Schedule.PassIsSequential(g, Flow(f), stages, SystemRun.TurnsAt(stages, allowed, k), pass, s);
    Schedule.SafeScheduleTopological(g, stages);
    SystemRun.SettledExecution(g, Flow(f), stages, allowed, order, k, s);
    PassDelivers(g, f, order, s);
  }
}
