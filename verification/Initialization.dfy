/** System::initialize: place the blocks, propagate signal attributes, combine and parallelize the stages. */
module Initialization {
  import opened BlockGraph
  import ExecMatrix
  import SystemInit
  import Schedule
  import Ports
  import Propagation
  import SystemPorts

  /** Either everything is set up, or an out port or a connection that must fail is reported and the placed blocks are left alone. */
  method InitializeSystem(sys: SystemInit.System, table: SystemPorts.PortTable, setup: Propagation.Setup) returns (r: Ports.Outcome, ghost done: seq<Wire>, ghost order: seq<Name>)
    requires Valid(table.graph) && PortsUsedOnce(table.graph) && Acyclic(table.graph)
    requires exists b :: b in table.graph.blocks && table.graph.blocks[b].source
    requires sys.execM.graph == table.graph && sys.execM.stages == []
    requires table.Shape() && table.Buffered([]) && Propagation.SetupTotal(table.graph, setup)
    modifies sys.execM, table`buffers, table`bufferCount, table.outPorts, table.inPorts
    ensures r == Ports.Connected ==> Schedule.Initialized(table.graph, sys.execM.stages) && ExecMatrix.ScheduleSafe(table.graph, sys.execM.stages)
    ensures SystemPorts.Propagated(table.graph, setup, old(table.State()), order, table.State(), r)
    ensures r == Ports.Connected ==> table.Buffered(done) && Distinct(done) && forall w :: w in done <==> w in table.graph.wires
    ensures r == Ports.Connected ==> Propagation.InCallOrder(table.graph, order, done)
    ensures PlacedInOrder(table.graph, order) && (r != Ports.Connected ==> sys.execM.stages == ExecMatrix.Singles(order))
  {
    r, done, order := PlaceAndPropagate(sys, table, setup);
    if r == Ports.Connected {
      CombineKeepsPorts(sys, table, order, done);
    }
  }

  /** The last two steps do not touch the ports. */
  method CombineKeepsPorts(sys: SystemInit.System, table: SystemPorts.PortTable, ghost order: seq<Name>, ghost done: seq<Wire>)
    requires Valid(table.graph) && PortsUsedOnce(table.graph) && Acyclic(table.graph) && sys.execM.graph == table.graph
    requires PlacedInOrder(table.graph, order) && sys.execM.stages == ExecMatrix.Singles(order)
    requires table.Listed() && table.Buffered(done)
    modifies sys.execM
    ensures Schedule.Initialized(table.graph, sys.execM.stages) && ExecMatrix.ScheduleSafe(table.graph, sys.execM.stages)
    ensures table.State() == old(table.State()) && table.Buffered(done)
  {
    Schedule.CombineAndParallelize(sys.execM, order);
  }

  method PlaceAndPropagate(sys: SystemInit.System, table: SystemPorts.PortTable, setup: Propagation.Setup) returns (r: Ports.Outcome, ghost done: seq<Wire>, ghost order: seq<Name>)
    requires Valid(table.graph) && PortsUsedOnce(table.graph) && Acyclic(table.graph)
    requires exists b :: b in table.graph.blocks && table.graph.blocks[b].source
    requires sys.execM.graph == table.graph && sys.execM.stages == []
    requires table.Shape() && table.Buffered([]) && Propagation.SetupTotal(table.graph, setup)
    modifies sys.execM, table`buffers, table`bufferCount, table.outPorts, table.inPorts
    ensures PlacedInOrder(table.graph, order) && sys.execM.stages == ExecMatrix.Singles(order)
    ensures SystemPorts.Propagated(table.graph, setup, old(table.State()), order, table.State(), r)
    ensures r == Ports.Connected ==> table.Buffered(done) && Distinct(done) && forall w :: w in done <==> w in table.graph.wires
    ensures r == Ports.Connected ==> Propagation.InCallOrder(table.graph, order, done)
  {
    ghost var preset := table.State();
    order := Place(sys);
    assert table.Ready(setup, preset, order);
    r, done := table.PropagateSignalAttributes(sys.execM.stages, setup, order);
  }

  /** A dependency order of exactly the blocks that take part. */
  ghost predicate PlacedInOrder(g: Graph, order: seq<Name>) {
    order != [] && Propagation.Placement(g, order) && forall b :: b in order <==> SystemInit.Wanted(g, b)
  }

  method Place(sys: SystemInit.System) returns (ghost order: seq<Name>)
    requires Valid(sys.execM.graph) && Acyclic(sys.execM.graph) && sys.execM.stages == []
    requires exists b :: b in sys.execM.graph.blocks && sys.execM.graph.blocks[b].source
    modifies sys.execM
    ensures PlacedInOrder(sys.execM.graph, order) && sys.execM.stages == ExecMatrix.Singles(order)
  {
    order := sys.PlaceAll();
    assert order != [] by {
      var b :| b in sys.execM.graph.blocks && sys.execM.graph.blocks[b].source;
      assert SystemInit.Wanted(sys.execM.graph, b);
    }
    SystemPorts.PlacedIsPlacement(sys.execM.graph, order);
  }
}
