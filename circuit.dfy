/** The circuit object: a node list and an element list that its methods
    update in place. Every method is proved against the function on circuit
    states that specifies it. */
module CircuitModel {
  import opened CircuitValues
  import opened Topology
  import opened Assembly
  import opened Evaluation

  /** How `Simulate` ends: with the solution written back and the elements
      evaluated, or with the solver raising its exception (`None`), which
      `np.linalg.solve` does for a singular matrix. */
  datatype Outcome = Solved | SingularSystem

  /** One more element of the voltage-source pass: the nodes as the element's
      own `simulate` leaves them, and its current zeroed if it is a source. */
  lemma SourceStep(nodes: seq<Node>, elements: seq<Element>, k: nat)
    requires k < |elements|
    ensures RunSources(nodes, elements[..k + 1])
      == if elements[k].kind.VoltageSource? then DriveTop(RunSources(nodes, elements[..k]), elements[k])
         else RunSources(nodes, elements[..k])
    ensures QuietSources(elements[..k + 1]) + elements[k + 1..]
      == (QuietSources(elements[..k]) + elements[k..])[k := if elements[k].kind.VoltageSource? then elements[k].(current := 0.0) else elements[k]]
  {
    assert elements[..k + 1][..k] == elements[..k];
  }

  class Circuit {
    var nodes: seq<Node>
    var elements: seq<Element>

    function State(): CircuitState
      reads this
    {
      CircuitState(nodes, elements)
    }

    /** Indices match positions, every binding names a registered node and is
        recorded in that node's adjacency list. */
    predicate Valid()
      reads this
    {
      WellFormed(State()) && Consistent(State())
    }

    /** An empty circuit. */
    constructor()
      ensures nodes == [] && elements == [] && Valid()
    {
      nodes := [];
      elements := [];
    }

    /** Registers an element at the end of the element list. */
    method AddElement(e: Element)
      modifies this
      ensures elements == old(elements) + [e] && nodes == old(nodes)
      ensures old(Valid()) && e.top == Unbound && e.bottom == Unbound ==> Valid()
    {
      elements := elements + [e];
      assert forall k :: 0 <= k < |old(elements)| ==> elements[k] == old(elements)[k];
    }

    /** Registers a node at the end of the node list. */
    method AddNode(n: Node)
      modifies this
      ensures nodes == old(nodes) + [n] && elements == old(elements)
      ensures old(Valid()) && n.index == |old(nodes)| && n.elements == [] ==> Valid()
    {
      nodes := nodes + [n];
      assert forall i :: 0 <= i < |old(nodes)| ==> nodes[i] == old(nodes)[i];
    }

    /** Binds pin `pin` (0 for top, 1 for bottom) of an element to a node and
        appends the element to the node's adjacency list. */
    method ConnectElementToNode(elementIndex: nat, nodeIndex: nat, pin: int)
      requires elementIndex < |elements| && nodeIndex < |nodes|
      modifies this
      ensures State() == Connect(old(State()), elementIndex, nodeIndex, pin)
      ensures old(Valid()) ==> Valid()
    {
      ConnectKeepsInvariants(State(), elementIndex, nodeIndex, pin);
      if pin == 0 {
        elements := elements[elementIndex := elements[elementIndex].(top := At(nodeIndex))];
      } else if pin == 1 {
        elements := elements[elementIndex := elements[elementIndex].(bottom := At(nodeIndex))];
      }
      nodes := nodes[nodeIndex := nodes[nodeIndex].(elements := nodes[nodeIndex].elements + [elementIndex])];
    }

    /** Merges node `drop` into node `keep`: concatenates the adjacency lists,
        rebinds the dropped node's elements, lowers the index of the dropped
        node and every later one, and removes the dropped node. */
    method ConnectNodeToNode(keep: nat, drop: nat)
      requires WellFormed(State()) && keep < |nodes| && drop < |nodes| && keep != drop
      modifies this
      ensures State() == Merge(old(State()), keep, drop)
      ensures old(Valid()) ==> Valid()
    {
      if Consistent(State()) {
        MergeKeepsWellFormed(State(), keep, drop);
        MergeKeepsConsistent(State(), keep, drop);
      }
      var moved := nodes[drop].elements;
      nodes := nodes[keep := nodes[keep].(elements := nodes[keep].elements + moved)];
      ghost var gathered := nodes;
      var j := 0;
      while j < |moved|
        invariant 0 <= j <= |moved|
        invariant elements == Rebind(old(elements), moved[..j], keep, drop) && nodes == gathered
      {
        var id := moved[j];
        if elements[id].top == At(drop) {
          elements := elements[id := elements[id].(top := At(keep))];
        } else {
          elements := elements[id := elements[id].(bottom := At(keep))];
        }
        assert moved[..j + 1][..j] == moved[..j];
        j := j + 1;
      }
      assert moved[..|moved|] == moved;
      var i := drop;
      while i < |nodes|
        invariant drop <= i <= |nodes| && |nodes| == |gathered|
        invariant elements == Rebind(old(elements), moved, keep, drop)
        invariant forall p :: 0 <= p < |nodes| ==>
          nodes[p] == if drop <= p < i then gathered[p].(index := gathered[p].index - 1) else gathered[p]
      {
        nodes := nodes[i := nodes[i].(index := nodes[i].index - 1)];
        i := i + 1;
      }
      assert nodes == Reindexed(gathered, drop);
      nodes := nodes[..drop] + nodes[drop + 1..];
      // Positions past `drop` move down by one; pins follow their nodes.
      elements := ShiftPins(elements, drop);
      assert nodes == RemoveAt(Reindexed(gathered, drop), drop);
    }

    /** A voltage source's `simulate`: its current becomes 0, and its top node
        takes the bottom node's voltage plus the source's value and becomes
        known. */
    method SimulateSource(k: nat)
      requires k < |elements| && elements[k].kind.VoltageSource?
      modifies this
      ensures nodes == DriveTop(old(nodes), old(elements)[k])
      ensures elements == old(elements)[k := old(elements)[k].(current := 0.0)]
    {
      var e := elements[k];
      elements := elements[k := e.(current := 0.0)];
      if e.top.At? && e.top.node < |nodes| {
        var t := e.top.node;
        nodes := nodes[t := nodes[t].(voltage := PinVoltage(nodes, e.bottom) + e.voltage, known := true)];
      }
    }

    /** The first pass of `simulate`: every voltage source, in element order. */
    method RunVoltageSources()
      modifies this
      ensures State() == Prepare(old(State()))
    {
      var k := 0;
      while k < |elements|
        invariant 0 <= k <= |elements| == |old(elements)|
        invariant nodes == RunSources(old(nodes), old(elements)[..k])
        invariant elements == QuietSources(old(elements)[..k]) + old(elements)[k..]
      {
        SourceStep(old(nodes), old(elements), k);
        if elements[k].kind.VoltageSource? {
          SimulateSource(k);
        }
        k := k + 1;
      }
      assert old(elements)[..k] == old(elements);
    }

    /** The second pass of `simulate`: one row per node, filled with `+=` and
        `-=` while the credited known neighbours are collected. */
    method AssembleSystem() returns (A: Matrix, b: Vector)
      requires Assemblable(State())
      ensures A == SystemMatrix(State()) && b == SystemRhs(State())
    {
      var n := |nodes|;
      A := [];
      b := [];
      var row := 0;
      while row < n
        invariant 0 <= row <= n
        invariant |A| == |b| == row
        invariant forall r :: 0 <= r < row ==> A[r] == Row(State(), r).coeffs && b[r] == Row(State(), r).rhs
      {
        var node := nodes[row];
        var coeffs := Zeros(n);
        var rhs := 0.0;
        if node.known {
          coeffs := coeffs[node.index := 1.0];
          rhs := node.voltage;
        } else {
          var used: seq<nat> := [];
          var j := 0;
          while j < |node.elements|
            invariant 0 <= j <= |node.elements|
            invariant RowState(coeffs, rhs, used) == RowFold(State(), row, j)
          {
            var e := elements[node.elements[j]];
            var other := OtherPin(e, row);
            if e.kind.Resistor? {
              assert Listed(State(), row, j) == e;
              var far := nodes[other.node];
              coeffs := coeffs[node.index := coeffs[node.index] + 1.0 / e.kind.resistance];
              coeffs := coeffs[far.index := coeffs[far.index] - (if !far.known then 1.0 / e.kind.resistance else 0.0)];
              if far.known && other.node !in used {
                rhs := rhs + far.voltage / e.kind.resistance;
                used := used + [other.node];
              }
            }
            j := j + 1;
          }
        }
        A := A + [coeffs];
        b := b + [rhs];
        row := row + 1;
      }
    }

    /** Node `i` takes voltage `x[i]`. */
    method WriteBackVoltages(x: Vector)
      requires |x| == |nodes|
      modifies this
      ensures nodes == WriteBack(old(nodes), x) && elements == old(elements)
    {
      var i := 0;
      while i < |x|
        invariant 0 <= i <= |x| && |nodes| == |x| && elements == old(elements)
        invariant forall p :: 0 <= p < |nodes| ==>
          nodes[p] == if p < i then old(nodes)[p].(voltage := x[p]) else old(nodes)[p]
      {
        nodes := nodes[i := nodes[i].(voltage := x[i])];
        i := i + 1;
      }
      assert nodes == WriteBack(old(nodes), x);
    }

    /** A resistor's `simulate`: sets and returns its voltage, the magnitude of
        its top node's voltage less the magnitude of its bottom node's, and its
        current, that voltage over the resistance. */
    method SimulateResistor(k: nat) returns (v: real, i: real)
      requires k < |elements| && elements[k].kind.Resistor? && elements[k].kind.resistance != 0.0
      modifies this
      ensures elements == old(elements)[k := EvaluateResistor(old(elements)[k], nodes)]
      ensures nodes == old(nodes)
      ensures v == elements[k].voltage && i == elements[k].current
    {
      var e := elements[k];
      v := Abs(PinVoltage(nodes, e.top)) - Abs(PinVoltage(nodes, e.bottom));
      i := v / e.kind.resistance;
      elements := elements[k := e.(voltage := v, current := i)];
    }

    /** The output pass: every element that is not a voltage source is
        simulated, in element order. */
    method OutputValues()
      requires NonzeroResistances(elements)
      modifies this
      ensures elements == Evaluated(nodes, old(elements)) && nodes == old(nodes)
    {
      var k := 0;
      while k < |elements|
        invariant 0 <= k <= |elements| == |old(elements)| && nodes == old(nodes)
        invariant forall p :: 0 <= p < |elements| ==>
          elements[p] == if p < k then Evaluated(nodes, old(elements))[p] else old(elements)[p]
      {
        if elements[k].kind.Resistor? {
          var _, _ := SimulateResistor(k);
        }
        k := k + 1;
      }
    }

    /** `simulate`: the voltage-source pass, the assembly, the dense solve
        (the solver `solve`, whose `None` stands for its exception), the
        write-back and the output pass. When the solver fails the circuit is
        left as the voltage-source pass made it. */
    method Simulate(solve: (Matrix, Vector) -> Option<Vector>) returns (outcome: Outcome)
      requires Assemblable(Prepare(State())) && SolverSound(solve)
      modifies this
      ensures var prepared := Prepare(old(State()));
        match solve(SystemMatrix(prepared), SystemRhs(prepared))
        case None => outcome == SingularSystem && State() == prepared
        case Some(x) => outcome == Solved && |x| == |prepared.nodes| && State() == Finish(prepared, x)
    {
      RunVoltageSources();
      var A, b := AssembleSystem();
      var solution := solve(A, b);
      match solution
      case None =>
        outcome := SingularSystem;
      case Some(x) =>
        assert IsSolution(A, b, x);
        WriteBackVoltages(x);
        OutputValues();
        outcome := Solved;
    }
  }
}
