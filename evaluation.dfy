/** After the solve: the solution is written back into the nodes by position,
    and every element that is not a voltage source recomputes its voltage and
    current from its pins' nodes. */
module Evaluation {
  import opened CircuitValues
  import opened Assembly
  import opened RowFacts

  /** Node `i` takes voltage `x[i]`; nothing else about a node changes. */
  function WriteBack(nodes: seq<Node>, x: Vector): (r: seq<Node>)
    requires |x| == |nodes|
    ensures |r| == |nodes|
    ensures forall i :: 0 <= i < |nodes| ==> r[i] == nodes[i].(voltage := x[i])
  {
    seq(|nodes|, i requires 0 <= i < |nodes| => nodes[i].(voltage := x[i]))
  }

  /** What simulating a resistor does: its voltage becomes the magnitude of its
      top node's voltage less the magnitude of its bottom node's, and its
      current that voltage over its resistance. */
  function EvaluateResistor(e: Element, nodes: seq<Node>): (r: Element)
    requires e.kind.Resistor? && e.kind.resistance != 0.0
    ensures r.(voltage := e.voltage, current := e.current) == e
    ensures r.voltage == Abs(PinVoltage(nodes, e.top)) - Abs(PinVoltage(nodes, e.bottom))
    ensures r.current * e.kind.resistance == r.voltage
  {
    var v := Abs(PinVoltage(nodes, e.top)) - Abs(PinVoltage(nodes, e.bottom));
    e.(voltage := v, current := v / e.kind.resistance)
  }

  function Abs(a: real): real {
    if a < 0.0 then -a else a
  }

  /** Every element after the output pass: resistors evaluated against
      `nodes`, voltage sources left alone. */
  function Evaluated(nodes: seq<Node>, elements: seq<Element>): seq<Element>
    requires NonzeroResistances(elements)
  {
    seq(|elements|, k requires 0 <= k < |elements| =>
      if elements[k].kind.Resistor? then EvaluateResistor(elements[k], nodes) else elements[k])
  }

  /** The circuit after the solve produced `x`: voltages written back, then the
      output pass run against the new voltages. */
  function Finish(c: CircuitState, x: Vector): CircuitState
    requires |x| == |c.nodes| && NonzeroResistances(c.elements)
  {
    var nodes := WriteBack(c.nodes, x);
    CircuitState(nodes, Evaluated(nodes, c.elements))
  }

  /** The output pass keeps every element's kind, display number and pins, and
      never touches a voltage source; every resistor then obeys Ohm's law with
      the voltage read from its nodes. */
  lemma FinishEvaluates(c: CircuitState, x: Vector, k: nat)
    requires |x| == |c.nodes| && NonzeroResistances(c.elements) && k < |c.elements|
    ensures var f := Finish(c, x).elements[k];
      && |Finish(c, x).elements| == |c.elements|
      && f.(voltage := c.elements[k].voltage, current := c.elements[k].current) == c.elements[k]
      && (c.elements[k].kind.VoltageSource? ==> f == c.elements[k])
      && (c.elements[k].kind.Resistor? ==>
            && f.voltage == Abs(PinVoltage(Finish(c, x).nodes, f.top)) - Abs(PinVoltage(Finish(c, x).nodes, f.bottom))
            && f.current * f.kind.resistance == f.voltage)
  {
  }

  /** A bound pin reads the solved voltage of its node. */
  lemma PinReadsSolution(c: CircuitState, x: Vector, p: nat)
    requires |x| == |c.nodes| && p < |c.nodes|
    ensures PinVoltage(WriteBack(c.nodes, x), At(p)) == x[p]
  {
  }

  /** The write-back changes only voltages: node count, indices, known flags
      and adjacency lists all stay, so the invariants do too. */
  lemma FinishKeepsInvariants(c: CircuitState, x: Vector)
    requires |x| == |c.nodes| && NonzeroResistances(c.elements)
    ensures WellFormed(c) ==> WellFormed(Finish(c, x))
    ensures Consistent(c) ==> Consistent(Finish(c, x))
  {
    var f := Finish(c, x);
    assert forall k :: 0 <= k < |c.elements| ==> f.elements[k].top == c.elements[k].top && f.elements[k].bottom == c.elements[k].bottom;
    assert forall i :: 0 <= i < |c.nodes| ==> f.nodes[i].elements == c.nodes[i].elements;
  }

  /** The whole simulation on a circuit: source pass, assembly, a solution `x`
      of the assembled system, write-back and output pass. */
  predicate SolvedBy(c: CircuitState, x: Vector) {
    Assemblable(Prepare(c)) && IsSolution(SystemMatrix(Prepare(c)), SystemRhs(Prepare(c)), x)
  }

  /** A node that was known before the simulation (a ground node, say) and that
      no voltage source drives ends it at the voltage it started with: 0 for a
      ground node. */
  lemma KnownNodeKeepsVoltage(c: CircuitState, x: Vector, i: nat)
    requires SolvedBy(c, x) && i < |c.nodes| && c.nodes[i].known
    requires forall k :: 0 <= k < |c.elements| ==> !Drives(c.elements, k, i)
    ensures |x| == |c.nodes|
    ensures Finish(Prepare(c), x).nodes[i].voltage == c.nodes[i].voltage
  {
    SourcesMarkKnown(c.nodes, c.elements, i);
    KnownNodesKeepVoltage(Prepare(c), x, i);
  }

  /** After the simulation a voltage source's top node sits exactly its value
      above its bottom node, provided the bottom node is known once the source
      pass is over (a ground node, or a node an earlier source drives) and no
      later source drives either node again. Without the first condition the
      source pass reads the bottom node's voltage before the solve has set
      it. */
  lemma SourceVoltageHolds(c: CircuitState, x: Vector, k: nat, t: nat, b: nat)
    requires SolvedBy(c, x) && t < |c.nodes| && b < |c.nodes| && t != b
    requires Drives(c.elements, k, t) && c.elements[k].bottom == At(b) && Prepare(c).nodes[b].known
    requires forall j :: k < j < |c.elements| ==> !Drives(c.elements, j, t) && !Drives(c.elements, j, b)
    ensures |x| == |c.nodes|
    ensures Finish(Prepare(c), x).nodes[t].voltage
      == Finish(Prepare(c), x).nodes[b].voltage + c.elements[k].voltage
  {
    SourceFixesTop(c.nodes, c.elements, k, t);
    KnownNodesKeepVoltage(Prepare(c), x, t);
    KnownNodesKeepVoltage(Prepare(c), x, b);
  }

  /** The simulation leaves a voltage source at its nominal value with a
      current of 0, and keeps its pins. */
  lemma SourceKeepsValue(c: CircuitState, x: Vector, k: nat)
    requires |x| == |c.nodes| && NonzeroResistances(c.elements)
    requires k < |c.elements| && c.elements[k].kind.VoltageSource?
    ensures |Finish(Prepare(c), x).elements| == |c.elements|
    ensures Finish(Prepare(c), x).elements[k] == c.elements[k].(current := 0.0)
  {
  }
}
