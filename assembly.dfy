/** The linear system `simulate` builds: first every voltage source fixes the
    voltage of its top node, then every node contributes one row, a unit row
    for a node whose voltage is known and a nodal row for any other. Values are
    exact reals. */
module Assembly {
  import opened CircuitValues

  type Vector = seq<real>
  type Matrix = seq<seq<real>>

  // ---- the voltage-source pass ----

  /** The voltage a pin reads: its node's, or 0 for the placeholder node. */
  function PinVoltage(nodes: seq<Node>, p: Pin): real {
    if p.At? && p.node < |nodes| then nodes[p.node].voltage else 0.0
  }

  /** What simulating one voltage source does to the nodes: its top node takes
      the bottom node's voltage plus the source's value and becomes known. A
      write to the placeholder node is lost. */
  function DriveTop(nodes: seq<Node>, source: Element): seq<Node> {
    if source.top.At? && source.top.node < |nodes| then
      var t := source.top.node;
      nodes[t := nodes[t].(voltage := PinVoltage(nodes, source.bottom) + source.voltage, known := true)]
    else nodes
  }

  /** The nodes after every voltage source among `elements` has been simulated,
      in list order; only voltages and known flags change. */
  function RunSources(nodes: seq<Node>, elements: seq<Element>): (r: seq<Node>)
    ensures |r| == |nodes|
    ensures forall i :: 0 <= i < |nodes| ==>
      r[i].index == nodes[i].index && r[i].elements == nodes[i].elements
    decreases |elements|
  {
    if elements == [] then nodes
    else
      var before := RunSources(nodes, elements[..|elements| - 1]);
      var e := elements[|elements| - 1];
      if e.kind.VoltageSource? then DriveTop(before, e) else before
  }

  /** Every voltage source's current set to 0, as simulating it does. */
  function QuietSources(elements: seq<Element>): seq<Element> {
    seq(|elements|, k requires 0 <= k < |elements| =>
      if elements[k].kind.VoltageSource? then elements[k].(current := 0.0) else elements[k])
  }

  /** Zeroing the sources' currents changes nothing once they are zero. */
  lemma QuietSourcesSettled(elements: seq<Element>)
    requires forall k :: 0 <= k < |elements| && elements[k].kind.VoltageSource? ==> elements[k].current == 0.0
    ensures QuietSources(elements) == elements
  {
  }

  /** The circuit as the assembly sees it, after the voltage-source pass. */
  function Prepare(c: CircuitState): CircuitState {
    CircuitState(RunSources(c.nodes, c.elements), QuietSources(c.elements))
  }

  /** Source `k` is a voltage source whose top pin is at node `t`. */
  predicate Drives(elements: seq<Element>, k: nat, t: nat) {
    k < |elements| && elements[k].kind.VoltageSource? && elements[k].top == At(t)
  }

  /** After the source pass a node is known exactly when it was known before or
      some voltage source has its top pin there; a node no source drives is
      left as it was. */
  lemma {:induction false} SourcesMarkKnown(nodes: seq<Node>, elements: seq<Element>, i: nat)
    requires i < |nodes|
    ensures RunSources(nodes, elements)[i].known <==>
      nodes[i].known || exists k :: 0 <= k < |elements| && Drives(elements, k, i)
    ensures (forall k :: 0 <= k < |elements| ==> !Drives(elements, k, i)) ==>
      RunSources(nodes, elements)[i] == nodes[i]
    decreases |elements|
  {
    if elements != [] {
      var front := elements[..|elements| - 1];
      var last := |elements| - 1;
      SourcesMarkKnown(nodes, front, i);
      var before := RunSources(nodes, front);
      assert forall k :: 0 <= k < |front| ==> (Drives(front, k, i) <==> Drives(elements, k, i));
      if Drives(elements, last, i) {
        assert RunSources(nodes, elements)[i].known;
      } else {
        assert RunSources(nodes, elements)[i] == before[i];
      }
    }
  }

  /** Simulating a source changes no node other than its top node. */
  lemma DriveTopElsewhere(nodes: seq<Node>, source: Element, i: nat)
    requires i < |nodes| && source.top != At(i)
    ensures DriveTop(nodes, source)[i] == nodes[i]
  {
  }

  /** After the source pass the top node of source `k` sits exactly the
      source's value above what its bottom pin reads, provided no later
      source drives the top node or the bottom node again. An earlier source
      may have set the bottom node: it is read after that source has run.
      A bottom pin at the top node itself is excluded. */
  lemma {:induction false} SourceFixesTop(nodes: seq<Node>, elements: seq<Element>, k: nat, t: nat)
    requires t < |nodes| && Drives(elements, k, t) && elements[k].bottom != At(t)
    requires forall j :: k < j < |elements| ==> !Drives(elements, j, t)
    requires forall j, b :: k < j < |elements| && elements[k].bottom == At(b) ==> !Drives(elements, j, b)
    ensures RunSources(nodes, elements)[t].voltage
      == PinVoltage(RunSources(nodes, elements), elements[k].bottom) + elements[k].voltage
    ensures RunSources(nodes, elements)[t].known
    decreases |elements|
  {
    var front := elements[..|elements| - 1];
    var last := |elements| - 1;
    var before := RunSources(nodes, front);
    var bottom := elements[k].bottom;
    if k == last {
      if bottom.At? && bottom.node < |nodes| {
        DriveTopElsewhere(before, elements[k], bottom.node);
      }
    } else {
      assert Drives(front, k, t);
      forall j | k < j < |front| ensures !Drives(front, j, t) {
        assert !Drives(elements, j, t);
      }
      forall j, b | k < j < |front| && front[k].bottom == At(b) ensures !Drives(front, j, b) {
        assert !Drives(elements, j, b);
      }
      SourceFixesTop(nodes, front, k, t);
      var e := elements[last];
      assert !Drives(elements, last, t);
      if e.kind.VoltageSource? {
        DriveTopElsewhere(before, e, t);
        if bottom.At? && bottom.node < |nodes| {
          assert !Drives(elements, last, bottom.node);
          DriveTopElsewhere(before, e, bottom.node);
        }
      }
    }
  }

  /** The source pass changes nothing the circuit's invariants speak of. */
  lemma PrepareKeepsInvariants(c: CircuitState)
    ensures WellFormed(c) ==> WellFormed(Prepare(c))
    ensures Consistent(c) ==> Consistent(Prepare(c))
  {
  }

  // ---- one row per node ----

  /** The row under construction: its coefficients, its right-hand side, and
      the known neighbours already credited to the right-hand side. */
  datatype RowState = RowState(coeffs: Vector, rhs: real, used: seq<nat>)

  function Zeros(n: nat): (v: Vector)
    ensures |v| == n && forall c :: 0 <= c < n ==> v[c] == 0.0
  {
    seq(n, _ => 0.0)
  }

  /** `v` with `a` added to entry `i`, as `v[i] += a` does. */
  function AddAt(v: Vector, i: nat, a: real): (w: Vector)
    requires i < |v|
    ensures |w| == |v| && w[i] == v[i] + a
    ensures forall j :: 0 <= j < |v| && j != i ==> w[j] == v[j]
  {
    v[i := v[i] + a]
  }

  function Unit(n: nat, i: nat): Vector
    requires i < n
  {
    Zeros(n)[i := 1.0]
  }

  /** The node at the far end of an element seen from node `row`: the bottom
      pin if the top pin is at `row`, the top pin otherwise. */
  function OtherPin(e: Element, row: nat): Pin {
    if e.top == At(row) then e.bottom else e.top
  }

  /** The element named by entry `j` of node `row`'s adjacency list. */
  function Listed(c: CircuitState, row: nat, j: nat): Element
    requires WellFormed(c) && row < |c.nodes| && j < |c.nodes[row].elements|
  {
    c.elements[c.nodes[row].elements[j]]
  }

  predicate NonzeroResistances(elements: seq<Element>) {
    forall k :: 0 <= k < |elements| && elements[k].kind.Resistor? ==> elements[k].kind.resistance != 0.0
  }

  /** What the assembly needs of a circuit: it is well formed, no resistance is
      zero, and every resistor listed at a node of unknown voltage leads to a
      registered node. */
  predicate Assemblable(c: CircuitState) {
    && WellFormed(c)
    && NonzeroResistances(c.elements)
    && forall row, j ::
         (0 <= row < |c.nodes| && !c.nodes[row].known && 0 <= j < |c.nodes[row].elements|
          && Listed(c, row, j).kind.Resistor?) ==> OtherPin(Listed(c, row, j), row).At?
  }

  /** What adjacency entry `j` of a node of unknown voltage adds to its row: a
      resistor adds its conductance on the diagonal and takes it off the column
      of an unknown neighbour; a known neighbour not yet credited adds its
      voltage over the resistance to the right-hand side. A voltage source adds
      nothing. */
  function RowStep(c: CircuitState, row: nat, st: RowState, j: nat): (r: RowState)
    requires Assemblable(c) && row < |c.nodes| && !c.nodes[row].known && j < |c.nodes[row].elements|
    requires |st.coeffs| == |c.nodes|
    ensures |r.coeffs| == |c.nodes|
  {
    var e := Listed(c, row, j);
    if e.kind.VoltageSource? then st
    else
      var g := 1.0 / e.kind.resistance;
      var other := OtherPin(e, row).node;
      var here := c.nodes[row].index;
      var far := c.nodes[other];
      var coeffs := AddAt(AddAt(st.coeffs, here, g), far.index, -(if !far.known then g else 0.0));
      if far.known && other !in st.used then
        RowState(coeffs, st.rhs + far.voltage / e.kind.resistance, st.used + [other])
      else
        RowState(coeffs, st.rhs, st.used)
  }

  /** The nodal row of a node of unknown voltage after its first `k` adjacency
      entries. */
  function RowFold(c: CircuitState, row: nat, k: nat): (st: RowState)
    requires Assemblable(c) && row < |c.nodes| && !c.nodes[row].known && k <= |c.nodes[row].elements|
    ensures |st.coeffs| == |c.nodes|
    decreases k
  {
    if k == 0 then RowState(Zeros(|c.nodes|), 0.0, [])
    else RowStep(c, row, RowFold(c, row, k - 1), k - 1)
  }

  /** Row `r` of the system: a unit row whose right-hand side is the node's
      voltage if that is known, the nodal row otherwise. */
  function Row(c: CircuitState, r: nat): (st: RowState)
    requires Assemblable(c) && r < |c.nodes|
    ensures |st.coeffs| == |c.nodes|
  {
    if c.nodes[r].known then RowState(Unit(|c.nodes|, c.nodes[r].index), c.nodes[r].voltage, [])
    else RowFold(c, r, |c.nodes[r].elements|)
  }

  function SystemMatrix(c: CircuitState): Matrix
    requires Assemblable(c)
  {
    seq(|c.nodes|, r requires 0 <= r < |c.nodes| => Row(c, r).coeffs)
  }

  function SystemRhs(c: CircuitState): Vector
    requires Assemblable(c)
  {
    seq(|c.nodes|, r requires 0 <= r < |c.nodes| => Row(c, r).rhs)
  }

  // ---- solutions ----

  function Dot(u: Vector, v: Vector): real
    requires |u| == |v|
    decreases |u|
  {
    if |u| == 0 then 0.0 else Dot(u[..|u| - 1], v[..|v| - 1]) + u[|u| - 1] * v[|v| - 1]
  }

  /** `x` solves the square system `A x = b`. */
  predicate IsSolution(A: Matrix, b: Vector, x: Vector) {
    && |A| == |b| == |x|
    && forall r :: 0 <= r < |A| ==> |A[r]| == |x| && Dot(A[r], x) == b[r]
  }

  /** What the dense solver promises: whenever it returns a vector, that vector
      solves the system it was given. `None` stands for the exception
      `np.linalg.solve` raises; this predicate alone does not say when that
      happens, so a solver that always returns `None` satisfies it. */
  ghost predicate SolverSound(solve: (Matrix, Vector) -> Option<Vector>) {
    forall A, b :: solve(A, b).Some? ==> IsSolution(A, b, solve(A, b).value)
  }

  /** The other half of the solver's promise: a system with exactly one
      solution gets an answer rather than the exception. */
  ghost predicate SolverComplete(solve: (Matrix, Vector) -> Option<Vector>) {
    forall A, b, x :: IsSolution(A, b, x) && (forall y :: IsSolution(A, b, y) ==> y == x) ==> solve(A, b).Some?
  }
}
