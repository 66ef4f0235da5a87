/** The repository's test circuits, built with the model's own connect and
    merge operations, with the values the tests expect proved over exact
    reals for every solution the solver may return. */
module Scenarios {
  import opened CircuitValues
  import opened Topology
  import opened Assembly
  import opened RowFacts
  import opened Evaluation
  import opened CircuitModel

  // ---- a 5 V source across a 10 ohm resistor ----

  /** Source 0 (5 V) and resistor 1 (10 ohm), node 0 and ground node 1. */
  function OhmsLawCircuit(): CircuitState {
    var c := CircuitState([NewNode(0), NewGround(1)], [NewVoltageSource(0, 5.0), NewResistor(1, 10.0)]);
    Connect(Connect(Connect(Connect(c, 0, 0, 0), 0, 1, 1), 1, 0, 0), 1, 1, 1)
  }

  /** The connections give node 0 both elements' top pins and the ground
      node both bottom pins, each adjacency list in connection order. */
  lemma OhmsLawBuilt()
    ensures OhmsLawCircuit() == CircuitState(
      [Node(0, false, 0.0, [0, 1]), Node(1, true, 0.0, [0, 1])],
      [Element(VoltageSource, 0, At(0), At(1), 5.0, 0.0), Element(Resistor(10.0), 1, At(0), At(1), 0.0, 0.0)])
  {
    var v := Element(VoltageSource, 0, At(0), At(1), 5.0, 0.0);
    var r := Element(Resistor(10.0), 1, At(0), At(1), 0.0, 0.0);
    var c0 := CircuitState([NewNode(0), NewGround(1)], [NewVoltageSource(0, 5.0), NewResistor(1, 10.0)]);
    var c1 := Connect(c0, 0, 0, 0);
    assert c1.elements[0] == Element(VoltageSource, 0, At(0), Unbound, 5.0, 0.0);
    assert c1.nodes[0].elements == [0];
    assert c1 == CircuitState([Node(0, false, 0.0, [0]), NewGround(1)], [v.(bottom := Unbound), NewResistor(1, 10.0)]);
    var c2 := Connect(c1, 0, 1, 1);
    assert c2 == CircuitState([Node(0, false, 0.0, [0]), Node(1, true, 0.0, [0])], [v, NewResistor(1, 10.0)]);
    var c3 := Connect(c2, 1, 0, 0);
    assert c3.elements[1] == Element(Resistor(10.0), 1, At(0), Unbound, 0.0, 0.0);
    assert c3.nodes[0].elements == [0, 1];
    assert c3 == CircuitState([Node(0, false, 0.0, [0, 1]), Node(1, true, 0.0, [0])], [v, r.(bottom := Unbound)]);
  }

  /** The source pass sets node 0 to 5 V above ground and marks it known. */
  lemma OhmsLawPrepared()
    ensures Prepare(OhmsLawCircuit()) == CircuitState(
      [Node(0, true, 5.0, [0, 1]), Node(1, true, 0.0, [0, 1])],
      [Element(VoltageSource, 0, At(0), At(1), 5.0, 0.0), Element(Resistor(10.0), 1, At(0), At(1), 0.0, 0.0)])
  {
    OhmsLawBuilt();
    var v := Element(VoltageSource, 0, At(0), At(1), 5.0, 0.0);
    var r := Element(Resistor(10.0), 1, At(0), At(1), 0.0, 0.0);
    var nodes := [Node(0, false, 0.0, [0, 1]), Node(1, true, 0.0, [0, 1])];
    assert [v, r][..1] == [v];
    assert [v][..0] == [];
    assert RunSources(nodes, [v]) == DriveTop(nodes, v);
    assert RunSources(nodes, [v, r]) == [Node(0, true, 5.0, [0, 1]), Node(1, true, 0.0, [0, 1])];
    assert QuietSources([v, r]) == [v, r];
  }

  /** Whatever solution the solver returns, the resistor ends at 5 V and
      0.5 A and the source keeps its 5 V. */
  lemma OhmsLaw(x: Vector)
    requires SolvedBy(OhmsLawCircuit(), x)
    ensures |x| == 2
    ensures var f := Finish(Prepare(OhmsLawCircuit()), x);
      f.elements[1].voltage == 5.0 && f.elements[1].current == 0.5 && f.elements[0].voltage == 5.0
  {
    OhmsLawPrepared();
    var p := Prepare(OhmsLawCircuit());
    KnownNodesKeepVoltage(p, x, 0);
    KnownNodesKeepVoltage(p, x, 1);
  }

  /** The assembled system is the identity with right-hand side (5, 0), so a
      solution exists. */
  lemma OhmsLawSolvable()
    ensures SolvedBy(OhmsLawCircuit(), [5.0, 0.0])
  {
    OhmsLawPrepared();
    var p := Prepare(OhmsLawCircuit());
    assert SystemMatrix(p) == [Unit(2, 0), Unit(2, 1)];
    DotUnit(2, 0, [5.0, 0.0]);
    DotUnit(2, 1, [5.0, 0.0]);
  }

  /** The test's own calls on a circuit object: add the source and the
      resistor, then node 0 and the ground node, none of them connected yet. */
  method AddOhmsLawParts() returns (c: Circuit)
    ensures fresh(c) && c.Valid()
    ensures c.State() == CircuitState([NewNode(0), NewGround(1)], [NewVoltageSource(0, 5.0), NewResistor(1, 10.0)])
  {
    c := new Circuit();
    c.AddElement(NewVoltageSource(0, 5.0));
    c.AddElement(NewResistor(1, 10.0));
    c.AddNode(NewNode(0));
    c.AddNode(NewGround(1));
  }

  /** Then both pins of each bound, the source's and the resistor's top pins
      to node 0 and their bottom pins to ground. */
  method BuildOhmsLaw() returns (c: Circuit)
    ensures fresh(c) && c.Valid() && c.State() == OhmsLawCircuit()
  {
    c := AddOhmsLawParts();
    c.ConnectElementToNode(0, 0, 0);
    c.ConnectElementToNode(0, 1, 1);
    c.ConnectElementToNode(1, 0, 0);
    c.ConnectElementToNode(1, 1, 1);
  }

  /** The assembled system has no solution but (5, 0). */
  lemma OhmsLawUnique(y: Vector)
    requires SolvedBy(OhmsLawCircuit(), y)
    ensures y == [5.0, 0.0]
  {
    OhmsLawPrepared();
    var p := Prepare(OhmsLawCircuit());
    KnownNodesKeepVoltage(p, y, 0);
    KnownNodesKeepVoltage(p, y, 1);
  }

  /** Then simulate, as the test does: whenever the solver returns a
      solution, the resistor ends at 5 V and 0.5 A and the source at 5 V; a
      solver that answers every uniquely solvable system does return one. */
  method RunOhmsLaw(solve: (Matrix, Vector) -> Option<Vector>) returns (c: Circuit, outcome: Outcome)
    requires SolverSound(solve)
    ensures fresh(c) && c.Valid() && |c.elements| == 2
    ensures outcome == Solved ==>
      c.elements[1].voltage == 5.0 && c.elements[1].current == 0.5 && c.elements[0].voltage == 5.0
    ensures SolverComplete(solve) ==> outcome == Solved
  {
    c := BuildOhmsLaw();
    OhmsLawSolvable();
    PrepareKeepsInvariants(c.State());
    ghost var prepared := Prepare(c.State());
    assert IsSolution(SystemMatrix(prepared), SystemRhs(prepared), [5.0, 0.0]);
    forall y | IsSolution(SystemMatrix(prepared), SystemRhs(prepared), y)
      ensures y == [5.0, 0.0]
    {
      OhmsLawUnique(y);
    }
    outcome := c.Simulate(solve);
    match solve(SystemMatrix(prepared), SystemRhs(prepared))
    case None =>
    case Some(x) =>
      OhmsLaw(x);
      FinishKeepsInvariants(prepared, x);
  }

  // ---- a source feeding a resistor into two parallel resistors ----

  /** The divider's nodes and elements before any connection. */
  function DividerParts(): CircuitState {
    CircuitState([NewNode(0), NewNode(1), NewGround(2)],
      [NewVoltageSource(0, 5.0), NewResistor(1, 2.0), NewResistor(2, 2.0), NewResistor(3, 4.0)])
  }

  /** Source 0 (5 V), resistors 1 (2 ohm), 2 (2 ohm) and 3 (4 ohm); nodes 0
      and 1 and ground node 2. */
  function DividerCircuit(): CircuitState {
    var c := Connect(Connect(DividerParts(), 0, 0, 0), 0, 2, 1);
    var c := Connect(Connect(c, 1, 0, 0), 1, 1, 1);
    var c := Connect(Connect(c, 2, 1, 0), 2, 2, 1);
    Connect(Connect(c, 3, 1, 0), 3, 2, 1)
  }

  /** The divider's elements with both pins bound. */
  function DividerElements(): seq<Element> {
    [Element(VoltageSource, 0, At(0), At(2), 5.0, 0.0), Element(Resistor(2.0), 1, At(0), At(1), 0.0, 0.0),
     Element(Resistor(2.0), 2, At(1), At(2), 0.0, 0.0), Element(Resistor(4.0), 3, At(1), At(2), 0.0, 0.0)]
  }

  /** The source and R1 wired. */
  function DividerHalf(): CircuitState {
    CircuitState(
      [Node(0, false, 0.0, [0, 1]), Node(1, false, 0.0, [1]), Node(2, true, 0.0, [0])],
      [Element(VoltageSource, 0, At(0), At(2), 5.0, 0.0),
       Element(Resistor(2.0), 1, At(0), At(1), 0.0, 0.0),
       Element(Resistor(2.0), 2, Unbound, Unbound, 0.0, 0.0),
       Element(Resistor(4.0), 3, Unbound, Unbound, 0.0, 0.0)])
  }

  /** Wiring the source and R1 fills the adjacency lists of nodes 0 and 1 and of ground. */
  lemma DividerFirstHalf()
    ensures Connect(Connect(Connect(Connect(DividerParts(), 0, 0, 0), 0, 2, 1), 1, 0, 0), 1, 1, 1)
      == DividerHalf()
  {
    var c0 := DividerParts();
    var c1 := Connect(c0, 0, 0, 0);
    assert c1.elements[0] == Element(VoltageSource, 0, At(0), Unbound, 5.0, 0.0);
    assert c1.nodes[0].elements == [0];
    assert c1 == CircuitState(
      [Node(0, false, 0.0, [0]), Node(1, false, 0.0, []), Node(2, true, 0.0, [])],
      [Element(VoltageSource, 0, At(0), Unbound, 5.0, 0.0),
       Element(Resistor(2.0), 1, Unbound, Unbound, 0.0, 0.0),
       Element(Resistor(2.0), 2, Unbound, Unbound, 0.0, 0.0),
       Element(Resistor(4.0), 3, Unbound, Unbound, 0.0, 0.0)]);
    var c2 := Connect(c1, 0, 2, 1);
    assert c2.elements[0] == Element(VoltageSource, 0, At(0), At(2), 5.0, 0.0);
    assert c2.nodes[2].elements == [0];
    assert c2 == CircuitState(
      [Node(0, false, 0.0, [0]), Node(1, false, 0.0, []), Node(2, true, 0.0, [0])],
      [Element(VoltageSource, 0, At(0), At(2), 5.0, 0.0),
       Element(Resistor(2.0), 1, Unbound, Unbound, 0.0, 0.0),
       Element(Resistor(2.0), 2, Unbound, Unbound, 0.0, 0.0),
       Element(Resistor(4.0), 3, Unbound, Unbound, 0.0, 0.0)]);
    var c3 := Connect(c2, 1, 0, 0);
    assert c3.elements[1] == Element(Resistor(2.0), 1, At(0), Unbound, 0.0, 0.0);
    assert c3.nodes[0].elements == [0, 1];
    assert c3 == CircuitState(
      [Node(0, false, 0.0, [0, 1]), Node(1, false, 0.0, []), Node(2, true, 0.0, [0])],
      [Element(VoltageSource, 0, At(0), At(2), 5.0, 0.0),
       Element(Resistor(2.0), 1, At(0), Unbound, 0.0, 0.0),
       Element(Resistor(2.0), 2, Unbound, Unbound, 0.0, 0.0),
       Element(Resistor(4.0), 3, Unbound, Unbound, 0.0, 0.0)]);
    var c4 := Connect(c3, 1, 1, 1);
    assert c4.elements[1] == Element(Resistor(2.0), 1, At(0), At(1), 0.0, 0.0);
    assert c4.nodes[1].elements == [1];
  }

  /** Wiring R2 and R3 between node 1 and ground. */
  lemma DividerSecondHalf()
    ensures Connect(Connect(Connect(Connect(DividerHalf(), 2, 1, 0), 2, 2, 1), 3, 1, 0), 3, 2, 1)
      == CircuitState(
        [Node(0, false, 0.0, [0, 1]), Node(1, false, 0.0, [1, 2, 3]), Node(2, true, 0.0, [0, 2, 3])],
        DividerElements())
  {
    var c0 := DividerHalf();
    var c1 := Connect(c0, 2, 1, 0);
    assert c1.elements[2] == Element(Resistor(2.0), 2, At(1), Unbound, 0.0, 0.0);
    assert c1.nodes[1].elements == [1, 2];
    assert c1 == CircuitState(
      [Node(0, false, 0.0, [0, 1]), Node(1, false, 0.0, [1, 2]), Node(2, true, 0.0, [0])],
      [Element(VoltageSource, 0, At(0), At(2), 5.0, 0.0),
       Element(Resistor(2.0), 1, At(0), At(1), 0.0, 0.0),
       Element(Resistor(2.0), 2, At(1), Unbound, 0.0, 0.0),
       Element(Resistor(4.0), 3, Unbound, Unbound, 0.0, 0.0)]);
    var c2 := Connect(c1, 2, 2, 1);
    assert c2.elements[2] == Element(Resistor(2.0), 2, At(1), At(2), 0.0, 0.0);
    assert c2.nodes[2].elements == [0, 2];
    assert c2 == CircuitState(
      [Node(0, false, 0.0, [0, 1]), Node(1, false, 0.0, [1, 2]), Node(2, true, 0.0, [0, 2])],
      [Element(VoltageSource, 0, At(0), At(2), 5.0, 0.0),
       Element(Resistor(2.0), 1, At(0), At(1), 0.0, 0.0),
       Element(Resistor(2.0), 2, At(1), At(2), 0.0, 0.0),
       Element(Resistor(4.0), 3, Unbound, Unbound, 0.0, 0.0)]);
    var c3 := Connect(c2, 3, 1, 0);
    assert c3.elements[3] == Element(Resistor(4.0), 3, At(1), Unbound, 0.0, 0.0);
    assert c3.nodes[1].elements == [1, 2, 3];
    assert c3 == CircuitState(
      [Node(0, false, 0.0, [0, 1]), Node(1, false, 0.0, [1, 2, 3]), Node(2, true, 0.0, [0, 2])],
      [Element(VoltageSource, 0, At(0), At(2), 5.0, 0.0),
       Element(Resistor(2.0), 1, At(0), At(1), 0.0, 0.0),
       Element(Resistor(2.0), 2, At(1), At(2), 0.0, 0.0),
       Element(Resistor(4.0), 3, At(1), Unbound, 0.0, 0.0)]);
    var c4 := Connect(c3, 3, 2, 1);
    assert c4.elements[3] == Element(Resistor(4.0), 3, At(1), At(2), 0.0, 0.0);
    assert c4.nodes[2].elements == [0, 2, 3];
  }

  /** Each node's adjacency list holds the elements connected to it, in
      connection order. */
  lemma DividerBuilt()
    ensures DividerCircuit() == CircuitState(
      [Node(0, false, 0.0, [0, 1]), Node(1, false, 0.0, [1, 2, 3]), Node(2, true, 0.0, [0, 2, 3])],
      DividerElements())
  {
    DividerFirstHalf();
    DividerSecondHalf();
  }

  /** The divider after the source pass. */
  function DividerReady(): CircuitState {
    CircuitState([Node(0, true, 5.0, [0, 1]), Node(1, false, 0.0, [1, 2, 3]), Node(2, true, 0.0, [0, 2, 3])],
      DividerElements())
  }

  /** The source pass sets node 0 to 5 V above ground and marks it known;
      node 1 stays unknown. */
  lemma DividerPrepared()
    ensures Prepare(DividerCircuit()) == DividerReady()
  {
    DividerBuilt();
    DividerSourcePass();
  }

  lemma DividerSourcePass()
    ensures Prepare(CircuitState(
      [Node(0, false, 0.0, [0, 1]), Node(1, false, 0.0, [1, 2, 3]), Node(2, true, 0.0, [0, 2, 3])],
      DividerElements())) == DividerReady()
  {
    var es := DividerElements();
    var nodes := [Node(0, false, 0.0, [0, 1]), Node(1, false, 0.0, [1, 2, 3]), Node(2, true, 0.0, [0, 2, 3])];
    var driven := DividerReady().nodes;
    assert es[..1][..0] == [];
    assert RunSources(nodes, es[..1]) == driven;
    assert es[..2][..1] == es[..1];
    assert RunSources(nodes, es[..2]) == driven;
    assert es[..3][..2] == es[..2];
    assert RunSources(nodes, es[..3]) == driven;
    assert es[..4][..3] == es[..3];
    assert es[..4] == es;
    assert RunSources(nodes, es) == driven;
    QuietSourcesSettled(es);
  }

  /** The row of node 1: conductance 1/2 + 1/2 + 1/4 on the diagonal and
      5/2 on the right; ground, reached twice, is credited once. */
  lemma DividerRow()
    ensures Assemblable(DividerReady())
    ensures RowFold(DividerReady(), 1, 3) == RowState([0.0, 1.25, 0.0], 2.5, [0, 2])
  {
    var c := DividerReady();
    assert c.nodes[1].elements == [1, 2, 3];
    assert Assemblable(c);
    assert Listed(c, 1, 0) == c.elements[1];
    assert RowFold(c, 1, 1) == RowState([0.0, 0.5, 0.0], 2.5, [0]);
    assert Listed(c, 1, 1) == c.elements[2];
    assert RowFold(c, 1, 2) == RowState([0.0, 1.0, 0.0], 2.5, [0, 2]);
    assert Listed(c, 1, 2) == c.elements[3];
  }

  /** Row 1 of the divider's system is 5/4 on the diagonal with 5/2 on the
      right. */
  lemma DividerSystem()
    ensures Assemblable(DividerReady())
    ensures SystemMatrix(DividerReady())[1] == AddAt(Zeros(3), 1, 1.25)
    ensures SystemRhs(DividerReady())[1] == 2.5
  {
    DividerRow();
  }

  /** The only solution of the divider's assembled system: node 0 at 5 V,
      node 1 at 2 V, ground at 0 V. */
  lemma DividerSystemSolution(x: Vector)
    requires Assemblable(DividerReady()) && IsSolution(SystemMatrix(DividerReady()), SystemRhs(DividerReady()), x)
    ensures x == [5.0, 2.0, 0.0]
  {
    DividerSystem();
    var p := DividerReady();
    KnownNodesKeepVoltage(p, x, 0);
    KnownNodesKeepVoltage(p, x, 2);
    DotAddAt(Zeros(3), x, 1, 1.25);
    DotZeros(3, x);
    assert Dot(SystemMatrix(p)[1], x) == SystemRhs(p)[1];
  }

  /** So the simulation of the divider has exactly one solution. */
  lemma DividerSolution(x: Vector)
    requires SolvedBy(DividerCircuit(), x)
    ensures x == [5.0, 2.0, 0.0]
  {
    DividerPrepared();
    DividerSystemSolution(x);
  }

  /** And (5, 2, 0) does solve the divider's assembled system. */
  lemma DividerSystemSolvable()
    ensures Assemblable(DividerReady())
    ensures IsSolution(SystemMatrix(DividerReady()), SystemRhs(DividerReady()), [5.0, 2.0, 0.0])
  {
    DividerSystem();
    var p := DividerReady();
    var x := [5.0, 2.0, 0.0];
    KnownNodeRow(p, 0);
    KnownNodeRow(p, 2);
    DotUnit(3, 0, x);
    DotUnit(3, 2, x);
    DotAddAt(Zeros(3), x, 1, 1.25);
    DotZeros(3, x);
    forall r | 0 <= r < 3 ensures Dot(SystemMatrix(p)[r], x) == SystemRhs(p)[r] {
      assert r == 0 || r == 1 || r == 2;
    }
  }

  /** So the simulation of the divider has a solution for the solver to
      return. */
  lemma DividerSolvable()
    ensures SolvedBy(DividerCircuit(), [5.0, 2.0, 0.0])
  {
    DividerPrepared();
    DividerSystemSolvable();
  }

  /** Whatever solution the solver returns, the resistors carry 3 V and
      1.5 A, 2 V and 1 A, 2 V and 0.5 A, as the repository's test expects. */
  lemma NodalAnalysis(x: Vector)
    requires SolvedBy(DividerCircuit(), x)
    ensures |x| == 3 && x[1] == 2.0
    ensures var f := Finish(Prepare(DividerCircuit()), x);
      && f.elements[1].voltage == 3.0 && f.elements[1].current == 1.5
      && f.elements[2].voltage == 2.0 && f.elements[2].current == 1.0
      && f.elements[3].voltage == 2.0 && f.elements[3].current == 0.5
  {
    DividerSolution(x);
    DividerPrepared();
    var f := Finish(DividerReady(), x);
    assert f.nodes == [Node(0, true, 5.0, [0, 1]), Node(1, false, 2.0, [1, 2, 3]), Node(2, true, 0.0, [0, 2, 3])];
    assert f.elements[1] == Element(Resistor(2.0), 1, At(0), At(1), 3.0, 3.0 / 2.0);
    assert f.elements[2] == Element(Resistor(2.0), 2, At(1), At(2), 2.0, 2.0 / 2.0);
    assert f.elements[3] == Element(Resistor(4.0), 3, At(1), At(2), 2.0, 2.0 / 4.0);
  }

  // ---- a bridge: two dividers joined by a fifth resistor ----

  /** The bridge's nodes and elements before any connection. */
  function BridgeParts(): CircuitState {
    CircuitState([NewNode(0), NewNode(1), NewNode(2), NewGround(3)],
      [NewVoltageSource(0, 5.0), NewResistor(1, 1.0), NewResistor(2, 2.0), NewResistor(3, 3.0),
       NewResistor(4, 4.0), NewResistor(5, 5.0)])
  }

  /** Source 0 (5 V) and resistors 1 to 5 of 1 to 5 ohm: R1 from node 0 to
      node 1, R2 from node 1 to ground node 3, R3 from node 0 to node 2, R4
      from node 2 to ground and R5 from node 1 to node 2. */
  function BridgeCircuit(): CircuitState {
    var c := Connect(Connect(BridgeParts(), 0, 0, 0), 0, 3, 1);
    var c := Connect(Connect(c, 1, 0, 0), 1, 1, 1);
    var c := Connect(Connect(c, 2, 1, 0), 2, 3, 1);
    var c := Connect(Connect(c, 3, 0, 0), 3, 2, 1);
    var c := Connect(Connect(c, 4, 2, 0), 4, 3, 1);
    Connect(Connect(c, 5, 1, 0), 5, 2, 1)
  }

  /** The bridge's elements with both pins bound. */
  function BridgeElements(): seq<Element> {
    [Element(VoltageSource, 0, At(0), At(3), 5.0, 0.0), Element(Resistor(1.0), 1, At(0), At(1), 0.0, 0.0),
     Element(Resistor(2.0), 2, At(1), At(3), 0.0, 0.0), Element(Resistor(3.0), 3, At(0), At(2), 0.0, 0.0),
     Element(Resistor(4.0), 4, At(2), At(3), 0.0, 0.0), Element(Resistor(5.0), 5, At(1), At(2), 0.0, 0.0)]
  }

  /** The source wired and R1's top pin at node 0. */
  function BridgeQuarter(): CircuitState {
    CircuitState(
      [Node(0, false, 0.0, [0, 1]), Node(1, false, 0.0, []), Node(2, false, 0.0, []), Node(3, true, 0.0, [0])],
      [Element(VoltageSource, 0, At(0), At(3), 5.0, 0.0),
       Element(Resistor(1.0), 1, At(0), Unbound, 0.0, 0.0),
       Element(Resistor(2.0), 2, Unbound, Unbound, 0.0, 0.0),
       Element(Resistor(3.0), 3, Unbound, Unbound, 0.0, 0.0),
       Element(Resistor(4.0), 4, Unbound, Unbound, 0.0, 0.0),
       Element(Resistor(5.0), 5, Unbound, Unbound, 0.0, 0.0)])
  }

  /** The source and the first divider, R1 and R2, wired. */
  function BridgeHalf(): CircuitState {
    CircuitState(
      [Node(0, false, 0.0, [0, 1]), Node(1, false, 0.0, [1, 2]), Node(2, false, 0.0, []), Node(3, true, 0.0, [0, 2])],
      [Element(VoltageSource, 0, At(0), At(3), 5.0, 0.0),
       Element(Resistor(1.0), 1, At(0), At(1), 0.0, 0.0),
       Element(Resistor(2.0), 2, At(1), At(3), 0.0, 0.0),
       Element(Resistor(3.0), 3, Unbound, Unbound, 0.0, 0.0),
       Element(Resistor(4.0), 4, Unbound, Unbound, 0.0, 0.0),
       Element(Resistor(5.0), 5, Unbound, Unbound, 0.0, 0.0)])
  }

  /** The source, the first divider, R3 and R4's top pin wired. */
  function BridgeThreeQuarters(): CircuitState {
    CircuitState(
      [Node(0, false, 0.0, [0, 1, 3]), Node(1, false, 0.0, [1, 2]), Node(2, false, 0.0, [3, 4]), Node(3, true, 0.0, [0, 2])],
      [Element(VoltageSource, 0, At(0), At(3), 5.0, 0.0),
       Element(Resistor(1.0), 1, At(0), At(1), 0.0, 0.0),
       Element(Resistor(2.0), 2, At(1), At(3), 0.0, 0.0),
       Element(Resistor(3.0), 3, At(0), At(2), 0.0, 0.0),
       Element(Resistor(4.0), 4, At(2), Unbound, 0.0, 0.0),
       Element(Resistor(5.0), 5, Unbound, Unbound, 0.0, 0.0)])
  }

  /** Connections one to three: the source's two pins and R1's top pin. */
  lemma BridgeFirstQuarter()
    ensures Connect(Connect(Connect(BridgeParts(), 0, 0, 0), 0, 3, 1), 1, 0, 0)
      == BridgeQuarter()
  {
    var c0 := BridgeParts();
    var c1 := Connect(c0, 0, 0, 0);
    assert c1.elements[0] == Element(VoltageSource, 0, At(0), Unbound, 5.0, 0.0);
    assert c1.nodes[0].elements == [0];
    assert c1 == CircuitState(
      [Node(0, false, 0.0, [0]), Node(1, false, 0.0, []), Node(2, false, 0.0, []), Node(3, true, 0.0, [])],
      [Element(VoltageSource, 0, At(0), Unbound, 5.0, 0.0),
       Element(Resistor(1.0), 1, Unbound, Unbound, 0.0, 0.0),
       Element(Resistor(2.0), 2, Unbound, Unbound, 0.0, 0.0),
       Element(Resistor(3.0), 3, Unbound, Unbound, 0.0, 0.0),
       Element(Resistor(4.0), 4, Unbound, Unbound, 0.0, 0.0),
       Element(Resistor(5.0), 5, Unbound, Unbound, 0.0, 0.0)]);
    var c2 := Connect(c1, 0, 3, 1);
    assert c2.elements[0] == Element(VoltageSource, 0, At(0), At(3), 5.0, 0.0);
    assert c2.nodes[3].elements == [0];
    assert c2 == CircuitState(
      [Node(0, false, 0.0, [0]), Node(1, false, 0.0, []), Node(2, false, 0.0, []), Node(3, true, 0.0, [0])],
      [Element(VoltageSource, 0, At(0), At(3), 5.0, 0.0),
       Element(Resistor(1.0), 1, Unbound, Unbound, 0.0, 0.0),
       Element(Resistor(2.0), 2, Unbound, Unbound, 0.0, 0.0),
       Element(Resistor(3.0), 3, Unbound, Unbound, 0.0, 0.0),
       Element(Resistor(4.0), 4, Unbound, Unbound, 0.0, 0.0),
       Element(Resistor(5.0), 5, Unbound, Unbound, 0.0, 0.0)]);
    var c3 := Connect(c2, 1, 0, 0);
    assert c3.elements[1] == Element(Resistor(1.0), 1, At(0), Unbound, 0.0, 0.0);
    assert c3.nodes[0].elements == [0, 1];
  }

  /** Connections four to six: R1's bottom pin and both of R2's. */
  lemma BridgeSecondQuarter()
    ensures Connect(Connect(Connect(BridgeQuarter(), 1, 1, 1), 2, 1, 0), 2, 3, 1)
      == BridgeHalf()
  {
    var c0 := BridgeQuarter();
    var c1 := Connect(c0, 1, 1, 1);
    assert c1.elements[1] == Element(Resistor(1.0), 1, At(0), At(1), 0.0, 0.0);
    assert c1.nodes[1].elements == [1];
    assert c1 == CircuitState(
      [Node(0, false, 0.0, [0, 1]), Node(1, false, 0.0, [1]), Node(2, false, 0.0, []), Node(3, true, 0.0, [0])],
      [Element(VoltageSource, 0, At(0), At(3), 5.0, 0.0),
       Element(Resistor(1.0), 1, At(0), At(1), 0.0, 0.0),
       Element(Resistor(2.0), 2, Unbound, Unbound, 0.0, 0.0),
       Element(Resistor(3.0), 3, Unbound, Unbound, 0.0, 0.0),
       Element(Resistor(4.0), 4, Unbound, Unbound, 0.0, 0.0),
       Element(Resistor(5.0), 5, Unbound, Unbound, 0.0, 0.0)]);
    var c2 := Connect(c1, 2, 1, 0);
    assert c2.elements[2] == Element(Resistor(2.0), 2, At(1), Unbound, 0.0, 0.0);
    assert c2.nodes[1].elements == [1, 2];
    assert c2 == CircuitState(
      [Node(0, false, 0.0, [0, 1]), Node(1, false, 0.0, [1, 2]), Node(2, false, 0.0, []), Node(3, true, 0.0, [0])],
      [Element(VoltageSource, 0, At(0), At(3), 5.0, 0.0),
       Element(Resistor(1.0), 1, At(0), At(1), 0.0, 0.0),
       Element(Resistor(2.0), 2, At(1), Unbound, 0.0, 0.0),
       Element(Resistor(3.0), 3, Unbound, Unbound, 0.0, 0.0),
       Element(Resistor(4.0), 4, Unbound, Unbound, 0.0, 0.0),
       Element(Resistor(5.0), 5, Unbound, Unbound, 0.0, 0.0)]);
    var c3 := Connect(c2, 2, 3, 1);
    assert c3.elements[2] == Element(Resistor(2.0), 2, At(1), At(3), 0.0, 0.0);
    assert c3.nodes[3].elements == [0, 2];
  }

  /** Connections seven to nine: both of R3's pins and R4's top pin. */
  lemma BridgeThirdQuarter()
    ensures Connect(Connect(Connect(BridgeHalf(), 3, 0, 0), 3, 2, 1), 4, 2, 0)
      == BridgeThreeQuarters()
  {
    var c0 := BridgeHalf();
    var c1 := Connect(c0, 3, 0, 0);
    assert c1.elements[3] == Element(Resistor(3.0), 3, At(0), Unbound, 0.0, 0.0);
    assert c1.nodes[0].elements == [0, 1, 3];
    assert c1 == CircuitState(
      [Node(0, false, 0.0, [0, 1, 3]), Node(1, false, 0.0, [1, 2]), Node(2, false, 0.0, []), Node(3, true, 0.0, [0, 2])],
      [Element(VoltageSource, 0, At(0), At(3), 5.0, 0.0),
       Element(Resistor(1.0), 1, At(0), At(1), 0.0, 0.0),
       Element(Resistor(2.0), 2, At(1), At(3), 0.0, 0.0),
       Element(Resistor(3.0), 3, At(0), Unbound, 0.0, 0.0),
       Element(Resistor(4.0), 4, Unbound, Unbound, 0.0, 0.0),
       Element(Resistor(5.0), 5, Unbound, Unbound, 0.0, 0.0)]);
    var c2 := Connect(c1, 3, 2, 1);
    assert c2.elements[3] == Element(Resistor(3.0), 3, At(0), At(2), 0.0, 0.0);
    assert c2.nodes[2].elements == [3];
    assert c2 == CircuitState(
      [Node(0, false, 0.0, [0, 1, 3]), Node(1, false, 0.0, [1, 2]), Node(2, false, 0.0, [3]), Node(3, true, 0.0, [0, 2])],
      [Element(VoltageSource, 0, At(0), At(3), 5.0, 0.0),
       Element(Resistor(1.0), 1, At(0), At(1), 0.0, 0.0),
       Element(Resistor(2.0), 2, At(1), At(3), 0.0, 0.0),
       Element(Resistor(3.0), 3, At(0), At(2), 0.0, 0.0),
       Element(Resistor(4.0), 4, Unbound, Unbound, 0.0, 0.0),
       Element(Resistor(5.0), 5, Unbound, Unbound, 0.0, 0.0)]);
    var c3 := Connect(c2, 4, 2, 0);
    assert c3.elements[4] == Element(Resistor(4.0), 4, At(2), Unbound, 0.0, 0.0);
    assert c3.nodes[2].elements == [3, 4];
  }

  /** Connections ten to twelve: R4's bottom pin and both of R5's. */
  lemma BridgeFourthQuarter()
    ensures Connect(Connect(Connect(BridgeThreeQuarters(), 4, 3, 1), 5, 1, 0), 5, 2, 1)
      == CircuitState(
        [Node(0, false, 0.0, [0, 1, 3]), Node(1, false, 0.0, [1, 2, 5]), Node(2, false, 0.0, [3, 4, 5]),
         Node(3, true, 0.0, [0, 2, 4])],
        BridgeElements())
  {
    var c0 := BridgeThreeQuarters();
    var c1 := Connect(c0, 4, 3, 1);
    assert c1.elements[4] == Element(Resistor(4.0), 4, At(2), At(3), 0.0, 0.0);
    assert c1.nodes[3].elements == [0, 2, 4];
    assert c1 == CircuitState(
      [Node(0, false, 0.0, [0, 1, 3]), Node(1, false, 0.0, [1, 2]), Node(2, false, 0.0, [3, 4]), Node(3, true, 0.0, [0, 2, 4])],
      [Element(VoltageSource, 0, At(0), At(3), 5.0, 0.0),
       Element(Resistor(1.0), 1, At(0), At(1), 0.0, 0.0),
       Element(Resistor(2.0), 2, At(1), At(3), 0.0, 0.0),
       Element(Resistor(3.0), 3, At(0), At(2), 0.0, 0.0),
       Element(Resistor(4.0), 4, At(2), At(3), 0.0, 0.0),
       Element(Resistor(5.0), 5, Unbound, Unbound, 0.0, 0.0)]);
    var c2 := Connect(c1, 5, 1, 0);
    assert c2.elements[5] == Element(Resistor(5.0), 5, At(1), Unbound, 0.0, 0.0);
    assert c2.nodes[1].elements == [1, 2, 5];
    assert c2 == CircuitState(
      [Node(0, false, 0.0, [0, 1, 3]), Node(1, false, 0.0, [1, 2, 5]), Node(2, false, 0.0, [3, 4]), Node(3, true, 0.0, [0, 2, 4])],
      [Element(VoltageSource, 0, At(0), At(3), 5.0, 0.0),
       Element(Resistor(1.0), 1, At(0), At(1), 0.0, 0.0),
       Element(Resistor(2.0), 2, At(1), At(3), 0.0, 0.0),
       Element(Resistor(3.0), 3, At(0), At(2), 0.0, 0.0),
       Element(Resistor(4.0), 4, At(2), At(3), 0.0, 0.0),
       Element(Resistor(5.0), 5, At(1), Unbound, 0.0, 0.0)]);
    var c3 := Connect(c2, 5, 2, 1);
    assert c3.elements[5] == Element(Resistor(5.0), 5, At(1), At(2), 0.0, 0.0);
    assert c3.nodes[2].elements == [3, 4, 5];
  }

  /** Each node's adjacency list holds the elements connected to it, in
      connection order. */
  lemma BridgeBuilt()
    ensures BridgeCircuit() == CircuitState(
      [Node(0, false, 0.0, [0, 1, 3]), Node(1, false, 0.0, [1, 2, 5]), Node(2, false, 0.0, [3, 4, 5]),
       Node(3, true, 0.0, [0, 2, 4])],
      BridgeElements())
  {
    BridgeFirstQuarter();
    BridgeSecondQuarter();
    BridgeThirdQuarter();
    BridgeFourthQuarter();
  }

  /** The bridge after the source pass. */
  function BridgeReady(): CircuitState {
    CircuitState(
      [Node(0, true, 5.0, [0, 1, 3]), Node(1, false, 0.0, [1, 2, 5]), Node(2, false, 0.0, [3, 4, 5]),
       Node(3, true, 0.0, [0, 2, 4])],
      BridgeElements())
  }

  /** The source pass sets node 0 to 5 V above ground and marks it known;
      nodes 1 and 2 stay unknown. */
  lemma BridgePrepared()
    ensures Prepare(BridgeCircuit()) == BridgeReady()
  {
    BridgeBuilt();
    BridgeSourcePass();
  }

  lemma BridgeSourcePass()
    ensures Prepare(CircuitState(
      [Node(0, false, 0.0, [0, 1, 3]), Node(1, false, 0.0, [1, 2, 5]), Node(2, false, 0.0, [3, 4, 5]),
       Node(3, true, 0.0, [0, 2, 4])],
      BridgeElements())) == BridgeReady()
  {
    var es := BridgeElements();
    var nodes := [Node(0, false, 0.0, [0, 1, 3]), Node(1, false, 0.0, [1, 2, 5]), Node(2, false, 0.0, [3, 4, 5]),
                  Node(3, true, 0.0, [0, 2, 4])];
    var driven := BridgeReady().nodes;
    assert es[..1][..0] == [];
    assert RunSources(nodes, es[..1]) == driven;
    assert es[..2][..1] == es[..1];
    assert RunSources(nodes, es[..2]) == driven;
    assert es[..3][..2] == es[..2];
    assert RunSources(nodes, es[..3]) == driven;
    assert es[..4][..3] == es[..3];
    assert RunSources(nodes, es[..4]) == driven;
    assert es[..5][..4] == es[..4];
    assert RunSources(nodes, es[..5]) == driven;
    assert es[..6][..5] == es[..5];
    assert es[..6] == es;
    assert RunSources(nodes, es) == driven;
    QuietSourcesSettled(es);
  }

  /** Every resistor listed at node 1 or node 2 leads to a registered node. */
  lemma BridgeAssemblable()
    ensures Assemblable(BridgeReady())
  {
    var c := BridgeReady();
    assert c.nodes[1].elements == [1, 2, 5] && c.nodes[2].elements == [3, 4, 5];
  }

  /** The row of node 1: 1/1 + 1/2 + 1/5 on the diagonal, -1/5 in node 2's
      column, and the source's 5 V over R1 on the right; ground adds nothing. */
  lemma BridgeRowOne()
    ensures Assemblable(BridgeReady())
    ensures RowFold(BridgeReady(), 1, 3) == RowState([0.0, 1.7, -0.2, 0.0], 5.0, [0, 3])
  {
    BridgeAssemblable();
    var c := BridgeReady();
    assert Listed(c, 1, 0) == c.elements[1] && Listed(c, 1, 1) == c.elements[2] && Listed(c, 1, 2) == c.elements[5];
    assert RowFold(c, 1, 1) == RowState([0.0, 1.0, 0.0, 0.0], 5.0, [0]);
    assert RowFold(c, 1, 2) == RowState([0.0, 1.5, 0.0, 0.0], 5.0, [0, 3]);
  }

  /** The row of node 2: 1/3 + 1/4 + 1/5 on the diagonal, -1/5 in node 1's
      column, and the source's 5 V over R3 on the right. */
  lemma BridgeRowTwo()
    ensures Assemblable(BridgeReady())
    ensures RowFold(BridgeReady(), 2, 3) == RowState([0.0, -0.2, 47.0 / 60.0, 0.0], 5.0 / 3.0, [0, 3])
  {
    BridgeAssemblable();
    var c := BridgeReady();
    assert Listed(c, 2, 0) == c.elements[3] && Listed(c, 2, 1) == c.elements[4] && Listed(c, 2, 2) == c.elements[5];
    assert RowFold(c, 2, 1) == RowState([0.0, 0.0, 1.0 / 3.0, 0.0], 5.0 / 3.0, [0]);
    assert RowFold(c, 2, 2) == RowState([0.0, 0.0, 7.0 / 12.0, 0.0], 5.0 / 3.0, [0, 3]);
  }

  /** A row with entries only in the two middle columns. */
  lemma {:induction false} DotMiddle(a: real, b: real, x: Vector)
    requires |x| == 4
    ensures Dot([0.0, a, b, 0.0], x) == a * x[1] + b * x[2]
  {
    assert [0.0, a, b, 0.0] == AddAt(AddAt(Zeros(4), 1, a), 2, b);
    DotZeros(4, x);
    DotAddAt(Zeros(4), x, 1, a);
    DotAddAt(AddAt(Zeros(4), 1, a), x, 2, b);
  }

  /** Rows 1 and 2 of the bridge's system, as the nodal rows give them. */
  lemma BridgeSystem()
    ensures Assemblable(BridgeReady())
    ensures SystemMatrix(BridgeReady())[1] == [0.0, 1.7, -0.2, 0.0] && SystemRhs(BridgeReady())[1] == 5.0
    ensures SystemMatrix(BridgeReady())[2] == [0.0, -0.2, 47.0 / 60.0, 0.0] && SystemRhs(BridgeReady())[2] == 5.0 / 3.0
  {
    BridgeRowOne();
    BridgeRowTwo();
  }

  /** The equations any solution of the bridge's system satisfies. */
  lemma BridgeEquations(x: Vector)
    requires SolvedBy(BridgeCircuit(), x)
    ensures |x| == 4 && x[0] == 5.0 && x[3] == 0.0
    ensures 1.7 * x[1] + -0.2 * x[2] == 5.0
    ensures -0.2 * x[1] + (47.0 / 60.0) * x[2] == 5.0 / 3.0
  {
    BridgePrepared();
    BridgeSystem();
    var p := BridgeReady();
    KnownNodesKeepVoltage(p, x, 0);
    KnownNodesKeepVoltage(p, x, 3);
    DotMiddle(1.7, -0.2, x);
    DotMiddle(-0.2, 47.0 / 60.0, x);
  }

  /** The only solution of the bridge's system: node 1 at 102/31 V and node 2
      at 92/31 V. */
  lemma BridgeSolution(x: Vector)
    requires SolvedBy(BridgeCircuit(), x)
    ensures x == [5.0, 102.0 / 31.0, 92.0 / 31.0, 0.0]
  {
    BridgeEquations(x);
  }

  /** The two nodal rows hold at node 1 at 102/31 V and node 2 at 92/31 V. */
  lemma BridgeRowsBalance()
    ensures Dot([0.0, 1.7, -0.2, 0.0], [5.0, 102.0 / 31.0, 92.0 / 31.0, 0.0]) == 5.0
    ensures Dot([0.0, -0.2, 47.0 / 60.0, 0.0], [5.0, 102.0 / 31.0, 92.0 / 31.0, 0.0]) == 5.0 / 3.0
  {
    DotMiddle(1.7, -0.2, [5.0, 102.0 / 31.0, 92.0 / 31.0, 0.0]);
    DotMiddle(-0.2, 47.0 / 60.0, [5.0, 102.0 / 31.0, 92.0 / 31.0, 0.0]);
  }

  /** Every row of the bridge's assembled system holds at (5, 102/31, 92/31,
      0): the unit rows of node 0 and ground, and the two nodal rows. */
  lemma BridgeRowsHold()
    ensures Assemblable(BridgeReady())
    ensures var x := [5.0, 102.0 / 31.0, 92.0 / 31.0, 0.0];
      forall r :: 0 <= r < 4 ==> Dot(SystemMatrix(BridgeReady())[r], x) == SystemRhs(BridgeReady())[r]
  {
    BridgeSystem();
    var p := BridgeReady();
    var x := [5.0, 102.0 / 31.0, 92.0 / 31.0, 0.0];
    KnownNodeRow(p, 0);
    KnownNodeRow(p, 3);
    DotUnit(4, 0, x);
    DotUnit(4, 3, x);
    BridgeRowsBalance();
    forall r | 0 <= r < 4 ensures Dot(SystemMatrix(p)[r], x) == SystemRhs(p)[r] {
      assert r == 0 || r == 1 || r == 2 || r == 3;
    }
  }

  /** And (5, 102/31, 92/31, 0) does solve the bridge's assembled system. */
  lemma BridgeSystemSolvable()
    ensures Assemblable(BridgeReady())
    ensures IsSolution(SystemMatrix(BridgeReady()), SystemRhs(BridgeReady()), [5.0, 102.0 / 31.0, 92.0 / 31.0, 0.0])
  {
    BridgeRowsHold();
  }

  /** So the simulation of the bridge has a solution for the solver to
      return. */
  lemma BridgeSolvable()
    ensures SolvedBy(BridgeCircuit(), [5.0, 102.0 / 31.0, 92.0 / 31.0, 0.0])
  {
    BridgePrepared();
    BridgeSystemSolvable();
  }

  /** Whatever solution the solver returns, the five resistors carry 53/31,
      102/31, 63/31, 92/31 and 10/31 V, and 53/31, 51/31, 21/31, 23/31 and
      2/31 A: about 1.71, 3.29, 2.03, 2.97 and 0.323 V, and 1.71, 1.65,
      0.677, 0.742 and 0.0645 A, the values the repository's test expects. */
  lemma BridgeCircuitValues(x: Vector)
    requires SolvedBy(BridgeCircuit(), x)
    ensures |x| == 4
    ensures var f := Finish(Prepare(BridgeCircuit()), x);
      && f.elements[1].voltage == 53.0 / 31.0 && f.elements[1].current == 53.0 / 31.0
      && f.elements[2].voltage == 102.0 / 31.0 && f.elements[2].current == 51.0 / 31.0
      && f.elements[3].voltage == 63.0 / 31.0 && f.elements[3].current == 21.0 / 31.0
      && f.elements[4].voltage == 92.0 / 31.0 && f.elements[4].current == 23.0 / 31.0
      && f.elements[5].voltage == 10.0 / 31.0 && f.elements[5].current == 2.0 / 31.0
  {
    BridgeSolution(x);
    BridgePrepared();
    var f := Finish(BridgeReady(), x);
    assert f.nodes[0].voltage == 5.0 && f.nodes[1].voltage == 102.0 / 31.0;
    assert f.nodes[2].voltage == 92.0 / 31.0 && f.nodes[3].voltage == 0.0;
    assert f.elements[1] == EvaluateResistor(BridgeElements()[1], f.nodes);
    assert f.elements[2] == EvaluateResistor(BridgeElements()[2], f.nodes);
    assert f.elements[3] == EvaluateResistor(BridgeElements()[3], f.nodes);
    assert f.elements[4] == EvaluateResistor(BridgeElements()[4], f.nodes);
    assert f.elements[5] == EvaluateResistor(BridgeElements()[5], f.nodes);
  }

  // ---- merging two nodes ----

  /** Four plain nodes; resistor 0 (1 ohm) has its top pin at node 0 and
      resistor 1 (2 ohm) its top pin at node 1. */
  function TwoTopsCircuit(): CircuitState {
    var c := CircuitState([NewNode(0), NewNode(1), NewNode(2), NewNode(3)],
      [NewResistor(0, 1.0), NewResistor(1, 2.0)]);
    Connect(Connect(c, 0, 0, 0), 1, 1, 0)
  }

  lemma TwoTopsBuilt()
    ensures TwoTopsCircuit() == CircuitState(
      [Node(0, false, 0.0, [0]), Node(1, false, 0.0, [1]), NewNode(2), NewNode(3)],
      [Element(Resistor(1.0), 0, At(0), Unbound, 0.0, 0.0), Element(Resistor(2.0), 1, At(1), Unbound, 0.0, 0.0)])
  {
    var c0 := CircuitState([NewNode(0), NewNode(1), NewNode(2), NewNode(3)],
      [NewResistor(0, 1.0), NewResistor(1, 2.0)]);
    var c1 := Connect(c0, 0, 0, 0);
    assert c1.elements[0] == Element(Resistor(1.0), 0, At(0), Unbound, 0.0, 0.0);
    assert c1.nodes[0].elements == [0];
    assert c1 == CircuitState(
      [Node(0, false, 0.0, [0]), NewNode(1), NewNode(2), NewNode(3)],
      [Element(Resistor(1.0), 0, At(0), Unbound, 0.0, 0.0), NewResistor(1, 2.0)]);
    var c2 := Connect(c1, 1, 1, 0);
    assert c2.elements[1] == Element(Resistor(2.0), 1, At(1), Unbound, 0.0, 0.0);
    assert c2.nodes[1].elements == [1];
  }

  /** Merging node 1 into node 0 leaves three nodes, indexed 0 to 2; node 0
      lists both resistors, resistor 0 first, and both top pins sit at node 0,
      as the repository's test expects. */
  lemma NodeConnection()
    ensures WellFormed(TwoTopsCircuit())
    ensures Merge(TwoTopsCircuit(), 0, 1) == CircuitState(
      [Node(0, false, 0.0, [0, 1]), NewNode(1), NewNode(2)],
      [Element(Resistor(1.0), 0, At(0), Unbound, 0.0, 0.0), Element(Resistor(2.0), 1, At(0), Unbound, 0.0, 0.0)])
  {
    TwoTopsBuilt();
    var c := TwoTopsCircuit();
    var gathered := [Node(0, false, 0.0, [0, 1]), Node(1, false, 0.0, [1]), NewNode(2), NewNode(3)];
    assert c.nodes[0].elements + c.nodes[1].elements == [0, 1];
    assert c.nodes[0 := c.nodes[0].(elements := c.nodes[0].elements + c.nodes[1].elements)] == gathered;
    var rebound := [Element(Resistor(1.0), 0, At(0), Unbound, 0.0, 0.0), Element(Resistor(2.0), 1, At(0), Unbound, 0.0, 0.0)];
    assert [1][..0] == [];
    assert Rebind(c.elements, [1], 0, 1) == rebound;
    assert Reindexed(gathered, 1) == [Node(0, false, 0.0, [0, 1]), Node(0, false, 0.0, [1]), NewNode(1), NewNode(2)];
    assert ShiftPins(rebound, 1) == rebound;
    assert RemoveAt(Reindexed(gathered, 1), 1) == [Node(0, false, 0.0, [0, 1]), NewNode(1), NewNode(2)];
  }

  /** The test's own calls on a circuit object: four nodes and two
      resistors, none of them connected yet. */
  method AddTwoTopsParts() returns (c: Circuit)
    ensures fresh(c) && c.Valid()
    ensures c.State() == CircuitState([NewNode(0), NewNode(1), NewNode(2), NewNode(3)],
      [NewResistor(0, 1.0), NewResistor(1, 2.0)])
  {
    c := new Circuit();
    c.AddNode(NewNode(0));
    assert c.nodes == [NewNode(0)] && c.Valid();
    c.AddNode(NewNode(1));
    assert c.nodes == [NewNode(0), NewNode(1)] && c.Valid();
    c.AddNode(NewNode(2));
    assert c.nodes == [NewNode(0), NewNode(1), NewNode(2)] && c.Valid();
    c.AddNode(NewNode(3));
    assert c.nodes == [NewNode(0), NewNode(1), NewNode(2), NewNode(3)] && c.Valid();
    c.AddElement(NewResistor(0, 1.0));
    assert c.elements == [NewResistor(0, 1.0)] && c.Valid();
    c.AddElement(NewResistor(1, 2.0));
    assert c.elements == [NewResistor(0, 1.0), NewResistor(1, 2.0)];
  }

  /** Then one top pin bound to each of the first two nodes. */
  method BuildTwoTops() returns (c: Circuit)
    ensures fresh(c) && c.Valid() && c.State() == TwoTopsCircuit()
  {
    c := AddTwoTopsParts();
    c.ConnectElementToNode(0, 0, 0);
    c.ConnectElementToNode(1, 1, 0);
  }

  /** Then the second node merged into the first, as the test does. */
  method RunNodeConnection() returns (c: Circuit)
    ensures fresh(c) && c.Valid()
    ensures |c.nodes| == 3 && c.nodes[0].elements == [0, 1] && |c.elements| == 2
    ensures c.elements[0].top == At(0) && c.elements[1].top == At(0)
  {
    c := BuildTwoTops();
    NodeConnection();
    c.ConnectNodeToNode(0, 1);
  }
}
