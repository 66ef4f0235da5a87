/** What the assembled system says: a known node's row pins the solution to the
    node's voltage, an unknown node's row holds the conductance stencil of its
    listed resistors, each known neighbour is credited to the right-hand side at
    most once, and any solution balances the currents at an unknown node whose
    resistors reach distinct known nodes. */
module RowFacts {
  import opened CircuitValues
  import opened Assembly

  // ---- the dot product ----

  /** Adding `d` to one coefficient adds `d` times that entry of `x`. */
  lemma {:induction false} DotAddAt(v: Vector, x: Vector, i: nat, d: real)
    requires |v| == |x| && i < |v|
    ensures Dot(AddAt(v, i, d), x) == Dot(v, x) + d * x[i]
    decreases |v|
  {
    var w := AddAt(v, i, d);
    var last := |v| - 1;
    if i == last {
      assert w[..last] == v[..last];
    } else {
      assert w[..last] == AddAt(v[..last], i, d);
      DotAddAt(v[..last], x[..last], i, d);
    }
  }

  lemma {:induction false} DotZeros(n: nat, x: Vector)
    requires |x| == n
    ensures Dot(Zeros(n), x) == 0.0
    decreases n
  {
    if n > 0 {
      assert Zeros(n)[..n - 1] == Zeros(n - 1);
      DotZeros(n - 1, x[..n - 1]);
    }
  }

  /** A unit row picks out one entry. */
  lemma DotUnit(n: nat, i: nat, x: Vector)
    requires i < n && |x| == n
    ensures Dot(Unit(n, i), x) == x[i]
  {
    DotZeros(n, x);
    DotAddAt(Zeros(n), x, i, 1.0);
    assert AddAt(Zeros(n), i, 1.0) == Unit(n, i);
  }

  // ---- known nodes ----

  /** A known node (a ground node, or a node a voltage source fixed) gets a
      unit row whose right-hand side is its voltage. */
  lemma KnownNodeRow(c: CircuitState, i: nat)
    requires Assemblable(c) && i < |c.nodes| && c.nodes[i].known
    ensures SystemMatrix(c)[i] == Unit(|c.nodes|, i) && SystemRhs(c)[i] == c.nodes[i].voltage
  {
    assert c.nodes[i].index == i;
  }

  /** So any solution of the assembled system gives a known node exactly the
      voltage it had. */
  lemma KnownNodesKeepVoltage(c: CircuitState, x: Vector, i: nat)
    requires Assemblable(c) && IsSolution(SystemMatrix(c), SystemRhs(c), x)
    requires i < |c.nodes| && c.nodes[i].known
    ensures SystemMatrix(c)[i] == Unit(|c.nodes|, i) && SystemRhs(c)[i] == c.nodes[i].voltage
    ensures x[i] == c.nodes[i].voltage
  {
    KnownNodeRow(c, i);
    DotUnit(|c.nodes|, i, x);
  }

  // ---- the coefficients of an unknown node's row ----

  /** What adjacency entry `j` of unknown node `row` adds to column `col`: a
      resistor adds its conductance on the diagonal and takes it off the column
      of its far node if that node is unknown; a voltage source adds nothing. */
  function Stencil(c: CircuitState, row: nat, j: nat, col: nat): real
    requires Assemblable(c) && row < |c.nodes| && !c.nodes[row].known && j < |c.nodes[row].elements|
  {
    var e := Listed(c, row, j);
    if e.kind.VoltageSource? then 0.0
    else
      var g := 1.0 / e.kind.resistance;
      var other := OtherPin(e, row).node;
      (if col == row then g else 0.0) - (if col == other && !c.nodes[other].known then g else 0.0)
  }

  /** The sum of `Stencil` over the first `k` adjacency entries. */
  function ColumnWeight(c: CircuitState, row: nat, k: nat, col: nat): real
    requires Assemblable(c) && row < |c.nodes| && !c.nodes[row].known && k <= |c.nodes[row].elements|
    decreases k
  {
    if k == 0 then 0.0 else ColumnWeight(c, row, k - 1, col) + Stencil(c, row, k - 1, col)
  }

  /** Every coefficient of an unknown node's row is the sum, over its adjacency
      list, of what each entry contributes to that column. */
  lemma {:induction false} RowColumns(c: CircuitState, row: nat, k: nat)
    requires Assemblable(c) && row < |c.nodes| && !c.nodes[row].known && k <= |c.nodes[row].elements|
    ensures forall col :: 0 <= col < |c.nodes| ==> RowFold(c, row, k).coeffs[col] == ColumnWeight(c, row, k, col)
    decreases k
  {
    if k > 0 {
      RowColumns(c, row, k - 1);
    }
  }

  /** A known node other than the row's own gets no coefficient: its voltage
      goes to the right-hand side instead. */
  lemma {:induction false} KnownColumnsStayZero(c: CircuitState, row: nat, k: nat, col: nat)
    requires Assemblable(c) && row < |c.nodes| && !c.nodes[row].known && k <= |c.nodes[row].elements|
    requires col < |c.nodes| && col != row && c.nodes[col].known
    ensures RowFold(c, row, k).coeffs[col] == 0.0
    decreases k
  {
    if k > 0 {
      KnownColumnsStayZero(c, row, k - 1, col);
    }
  }

  /** The total conductance of the resistors among the first `k` entries. */
  function Conductance(c: CircuitState, row: nat, k: nat): real
    requires Assemblable(c) && row < |c.nodes| && !c.nodes[row].known && k <= |c.nodes[row].elements|
    decreases k
  {
    if k == 0 then 0.0
    else
      var e := Listed(c, row, k - 1);
      Conductance(c, row, k - 1) + (if e.kind.Resistor? then 1.0 / e.kind.resistance else 0.0)
  }

  /** The diagonal entry of an unknown node is the total conductance of its
      listed resistors, when none of them has both ends at the node. */
  lemma {:induction false} DiagonalIsConductance(c: CircuitState, row: nat, k: nat)
    requires Assemblable(c) && row < |c.nodes| && !c.nodes[row].known && k <= |c.nodes[row].elements|
    requires forall j :: 0 <= j < k && Listed(c, row, j).kind.Resistor? ==> OtherPin(Listed(c, row, j), row) != At(row)
    ensures RowFold(c, row, k).coeffs[row] == Conductance(c, row, k)
    decreases k
  {
    if k > 0 {
      DiagonalIsConductance(c, row, k - 1);
    }
  }

  // ---- the right-hand side of an unknown node's row ----

  /** Entry `j` of node `row` is a resistor whose far end is the known node `o`. */
  predicate ReachesKnownAt(c: CircuitState, row: nat, j: nat, o: nat)
    requires Assemblable(c) && row < |c.nodes| && j < |c.nodes[row].elements|
  {
    && Listed(c, row, j).kind.Resistor?
    && OtherPin(Listed(c, row, j), row) == At(o)
    && o < |c.nodes| && c.nodes[o].known
  }

  /** One of the first `k` entries of node `row` is a resistor to known node `o`. */
  predicate ReachesKnown(c: CircuitState, row: nat, k: nat, o: nat)
    requires Assemblable(c) && row < |c.nodes| && k <= |c.nodes[row].elements|
    decreases k
  {
    k > 0 && (ReachesKnown(c, row, k - 1, o) || ReachesKnownAt(c, row, k - 1, o))
  }

  /** The credited list holds exactly the known nodes reached so far. */
  lemma {:induction false} UsedAreReached(c: CircuitState, row: nat, k: nat)
    requires Assemblable(c) && row < |c.nodes| && !c.nodes[row].known && k <= |c.nodes[row].elements|
    ensures forall o :: o in RowFold(c, row, k).used <==> ReachesKnown(c, row, k, o)
    decreases k
  {
    if k > 0 {
      UsedAreReached(c, row, k - 1);
    }
  }

  /** A resistor to a known node already reached by an earlier resistor adds
      nothing to the right-hand side. */
  lemma RepeatedKnownNeighbourIgnored(c: CircuitState, row: nat, j: nat, o: nat)
    requires Assemblable(c) && row < |c.nodes| && !c.nodes[row].known && j < |c.nodes[row].elements|
    requires ReachesKnownAt(c, row, j, o) && ReachesKnown(c, row, j, o)
    ensures RowFold(c, row, j + 1).rhs == RowFold(c, row, j).rhs
  {
    UsedAreReached(c, row, j);
  }

  /** The first resistor to a known node adds that node's voltage over its
      resistance to the right-hand side. */
  lemma FirstKnownNeighbourCredited(c: CircuitState, row: nat, j: nat, o: nat)
    requires Assemblable(c) && row < |c.nodes| && !c.nodes[row].known && j < |c.nodes[row].elements|
    requires ReachesKnownAt(c, row, j, o) && !ReachesKnown(c, row, j, o)
    ensures RowFold(c, row, j + 1).rhs == RowFold(c, row, j).rhs + c.nodes[o].voltage / Listed(c, row, j).kind.resistance
  {
    UsedAreReached(c, row, j);
  }

  /** No two resistors listed at `row` lead to the same known node. */
  predicate DistinctKnownNeighbours(c: CircuitState, row: nat)
    requires Assemblable(c) && row < |c.nodes|
  {
    forall i, j, o :: 0 <= i < j < |c.nodes[row].elements| && 0 <= o < |c.nodes| && ReachesKnownAt(c, row, i, o) ==>
      !ReachesKnownAt(c, row, j, o)
  }

  lemma {:induction false} ReachedHasWitness(c: CircuitState, row: nat, k: nat, o: nat)
    requires Assemblable(c) && row < |c.nodes| && k <= |c.nodes[row].elements|
    requires ReachesKnown(c, row, k, o)
    ensures exists i :: 0 <= i < k && ReachesKnownAt(c, row, i, o)
    decreases k
  {
    if !ReachesKnownAt(c, row, k - 1, o) {
      ReachedHasWitness(c, row, k - 1, o);
    }
  }

  // ---- Kirchhoff's current law ----

  /** The current leaving node `row` through the resistors among its first `k`
      entries, for node voltages `x`. */
  function Outflow(c: CircuitState, row: nat, x: Vector, k: nat): real
    requires Assemblable(c) && row < |c.nodes| && !c.nodes[row].known && k <= |c.nodes[row].elements|
    requires |x| == |c.nodes|
    decreases k
  {
    if k == 0 then 0.0
    else
      var e := Listed(c, row, k - 1);
      Outflow(c, row, x, k - 1)
        + (if e.kind.Resistor? then (x[row] - x[OtherPin(e, row).node]) / e.kind.resistance else 0.0)
  }

  /** The coefficients a resistor entry leaves: its conductance `g` added on
      the diagonal and `d` taken off the far node's column. */
  lemma RowStepCoeffs(c: CircuitState, row: nat, st: RowState, j: nat, g: real, other: nat, d: real)
    requires Assemblable(c) && row < |c.nodes| && !c.nodes[row].known && j < |c.nodes[row].elements|
    requires |st.coeffs| == |c.nodes| && Listed(c, row, j).kind.Resistor?
    requires g == 1.0 / Listed(c, row, j).kind.resistance && OtherPin(Listed(c, row, j), row) == At(other)
    requires d == if !c.nodes[other].known then g else 0.0
    ensures RowStep(c, row, st, j).coeffs == AddAt(AddAt(st.coeffs, row, g), other, -d)
  {
    assert c.nodes[row].index == row && c.nodes[other].index == other;
  }

  /** How a resistor entry, of resistance `r` and with far node `other`,
      changes the row's right-hand side, when no two resistors lead to the same
      known node: by the far node's voltage over `r` if that node is known. */
  lemma RowStepRhs(c: CircuitState, row: nat, k: nat, r: real, other: nat)
    requires Assemblable(c) && row < |c.nodes| && !c.nodes[row].known && 0 < k <= |c.nodes[row].elements|
    requires Listed(c, row, k - 1).kind == Resistor(r) && OtherPin(Listed(c, row, k - 1), row) == At(other)
    requires DistinctKnownNeighbours(c, row)
    ensures RowFold(c, row, k).rhs
      == RowFold(c, row, k - 1).rhs + (if c.nodes[other].known then c.nodes[other].voltage / r else 0.0)
  {
    UsedAreReached(c, row, k - 1);
    if c.nodes[other].known {
      assert ReachesKnownAt(c, row, k - 1, other);
      if ReachesKnown(c, row, k - 1, other) {
        ReachedHasWitness(c, row, k - 1, other);
        assert false;
      }
    }
  }

  /** Entry `k - 1` of the node's list changes the row's left-hand side minus
      its right-hand side by exactly the current it adds to the outflow. */
  lemma EntryBalance(c: CircuitState, row: nat, x: Vector, k: nat)
    requires Assemblable(c) && row < |c.nodes| && !c.nodes[row].known && 0 < k <= |c.nodes[row].elements|
    requires |x| == |c.nodes|
    requires forall o :: 0 <= o < |c.nodes| && c.nodes[o].known ==> x[o] == c.nodes[o].voltage
    requires DistinctKnownNeighbours(c, row)
    ensures Dot(RowFold(c, row, k).coeffs, x) - RowFold(c, row, k).rhs
      == Dot(RowFold(c, row, k - 1).coeffs, x) - RowFold(c, row, k - 1).rhs
         + (Outflow(c, row, x, k) - Outflow(c, row, x, k - 1))
  {
    var e := Listed(c, row, k - 1);
    if e.kind.Resistor? {
      var other := OtherPin(e, row).node;
      if c.nodes[other].known {
        KnownNeighbourBalance(c, row, x, k, e.kind.resistance, other);
      } else {
        UnknownNeighbourBalance(c, row, x, k, e.kind.resistance, other);
      }
    } else {
      assert RowFold(c, row, k) == RowFold(c, row, k - 1);
      assert Outflow(c, row, x, k) == Outflow(c, row, x, k - 1);
    }
  }

  /** `EntryBalance` for a resistor entry of resistance `r` whose far node
      `other` is known, with `x` holding that node's voltage. */
  lemma KnownNeighbourBalance(c: CircuitState, row: nat, x: Vector, k: nat, r: real, other: nat)
    requires Assemblable(c) && row < |c.nodes| && !c.nodes[row].known && 0 < k <= |c.nodes[row].elements|
    requires |x| == |c.nodes| && DistinctKnownNeighbours(c, row)
    requires Listed(c, row, k - 1).kind == Resistor(r) && OtherPin(Listed(c, row, k - 1), row) == At(other)
    requires c.nodes[other].known && x[other] == c.nodes[other].voltage
    ensures Dot(RowFold(c, row, k).coeffs, x) - RowFold(c, row, k).rhs
      == Dot(RowFold(c, row, k - 1).coeffs, x) - RowFold(c, row, k - 1).rhs
         + (Outflow(c, row, x, k) - Outflow(c, row, x, k - 1))
  {
    var prev := RowFold(c, row, k - 1);
    var next := RowFold(c, row, k);
    assert next == RowStep(c, row, prev, k - 1);
    RowStepCoeffs(c, row, prev, k - 1, 1.0 / r, other, 0.0);
    RowStepRhs(c, row, k, r, other);
    KnownEntry(prev.coeffs, next.coeffs, x, row, other, 1.0 / r, r,
      prev.rhs, next.rhs, Outflow(c, row, x, k - 1), Outflow(c, row, x, k));
  }

  /** `EntryBalance` for a resistor entry of resistance `r` whose far node
      `other` is unknown. */
  lemma UnknownNeighbourBalance(c: CircuitState, row: nat, x: Vector, k: nat, r: real, other: nat)
    requires Assemblable(c) && row < |c.nodes| && !c.nodes[row].known && 0 < k <= |c.nodes[row].elements|
    requires |x| == |c.nodes| && DistinctKnownNeighbours(c, row)
    requires Listed(c, row, k - 1).kind == Resistor(r) && OtherPin(Listed(c, row, k - 1), row) == At(other)
    requires !c.nodes[other].known
    ensures Dot(RowFold(c, row, k).coeffs, x) - RowFold(c, row, k).rhs
      == Dot(RowFold(c, row, k - 1).coeffs, x) - RowFold(c, row, k - 1).rhs
         + (Outflow(c, row, x, k) - Outflow(c, row, x, k - 1))
  {
    var prev := RowFold(c, row, k - 1);
    var next := RowFold(c, row, k);
    assert next == RowStep(c, row, prev, k - 1);
    RowStepCoeffs(c, row, prev, k - 1, 1.0 / r, other, 1.0 / r);
    RowStepRhs(c, row, k, r, other);
    UnknownEntry(prev.coeffs, next.coeffs, x, row, other, 1.0 / r, r,
      prev.rhs, next.rhs, Outflow(c, row, x, k - 1), Outflow(c, row, x, k));
  }

  /** For voltages that agree with every known node, the row's left-hand side
      minus its right-hand side is the current leaving the node. */
  lemma {:induction false} RowBalance(c: CircuitState, row: nat, x: Vector, k: nat)
    requires Assemblable(c) && row < |c.nodes| && !c.nodes[row].known && k <= |c.nodes[row].elements|
    requires |x| == |c.nodes|
    requires forall o :: 0 <= o < |c.nodes| && c.nodes[o].known ==> x[o] == c.nodes[o].voltage
    requires DistinctKnownNeighbours(c, row)
    ensures Dot(RowFold(c, row, k).coeffs, x) - RowFold(c, row, k).rhs == Outflow(c, row, x, k)
    decreases k
  {
    if k == 0 {
      DotZeros(|c.nodes|, x);
    } else {
      RowBalance(c, row, x, k - 1);
      EntryBalance(c, row, x, k);
    }
  }

  /** The balance step for a resistor entry of resistance `r` from node `i`
      to a node `j` of known voltage `x[j]`, on the quantities alone: the row's
      coefficients `v`, right-hand side `rhs` and the outflow `out` before the
      entry, and the same primed after it. */
  lemma {:induction false} KnownEntry(v: Vector, v': Vector, x: Vector, i: nat, j: nat, g: real, r: real,
                   rhs: real, rhs': real, out: real, out': real)
    requires |v| == |x| && i < |v| && j < |v| && r != 0.0 && g == 1.0 / r
    requires v' == AddAt(AddAt(v, i, g), j, -0.0)
    requires rhs' == rhs + x[j] / r && out' == out + (x[i] - x[j]) / r
    ensures Dot(v', x) - rhs' == Dot(v, x) - rhs + (out' - out)
  {
    assert v' == AddAt(v, i, g);
    DotAddConductance(v, x, i, r, g);
    DividedDifference(x[i], x[j], r);
  }

  /** The balance step for a resistor entry from node `i` to a node `j` of
      unknown voltage. */
  lemma {:induction false} UnknownEntry(v: Vector, v': Vector, x: Vector, i: nat, j: nat, g: real, r: real,
                     rhs: real, rhs': real, out: real, out': real)
    requires |v| == |x| && i < |v| && j < |v| && r != 0.0 && g == 1.0 / r
    requires v' == AddAt(AddAt(v, i, g), j, -g)
    requires rhs' == rhs && out' == out + (x[i] - x[j]) / r
    ensures Dot(v', x) - rhs' == Dot(v, x) - rhs + (out' - out)
  {
    DotAddConductance(v, x, i, r, g);
    DotSubConductance(AddAt(v, i, g), x, j, r, g);
    DividedDifference(x[i], x[j], r);
  }

  /** Adding the conductance `g = 1/r` to coefficient `i` adds `x[i] / r`. */
  lemma {:induction false} DotAddConductance(v: Vector, x: Vector, i: nat, r: real, g: real)
    requires |v| == |x| && i < |v| && r != 0.0 && g == 1.0 / r
    ensures Dot(AddAt(v, i, g), x) == Dot(v, x) + x[i] / r
  {
    DotAddAt(v, x, i, g);
    ConductanceTimes(g, r, x[i]);
  }

  /** Subtracting the conductance `g = 1/r` from coefficient `i` subtracts
      `x[i] / r`. */
  lemma {:induction false} DotSubConductance(v: Vector, x: Vector, i: nat, r: real, g: real)
    requires |v| == |x| && i < |v| && r != 0.0 && g == 1.0 / r
    ensures Dot(AddAt(v, i, -g), x) == Dot(v, x) - x[i] / r
  {
    DotAddAt(v, x, i, -g);
    ConductanceTimes(g, r, x[i]);
    assert -g * x[i] == -(g * x[i]);
  }

  /** Multiplying by the conductance `1/r` is dividing by `r`. */
  lemma ConductanceTimes(g: real, r: real, a: real)
    requires r != 0.0 && g == 1.0 / r
    ensures g * a == a / r
  {
  }

  lemma DividedDifference(a: real, b: real, r: real)
    requires r != 0.0
    ensures a / r - b / r == (a - b) / r
  {
  }

  /** Kirchhoff's current law at an unknown node: for any solution of the
      assembled system, the currents through the node's listed resistors sum
      to zero, provided no two of them lead to the same known node. */
  lemma KirchhoffAtUnknownNode(c: CircuitState, x: Vector, row: nat)
    requires Assemblable(c) && IsSolution(SystemMatrix(c), SystemRhs(c), x)
    requires row < |c.nodes| && !c.nodes[row].known && DistinctKnownNeighbours(c, row)
    ensures Outflow(c, row, x, |c.nodes[row].elements|) == 0.0
  {
    forall o | 0 <= o < |c.nodes| && c.nodes[o].known ensures x[o] == c.nodes[o].voltage {
      KnownNodesKeepVoltage(c, x, o);
    }
    RowBalance(c, row, x, |c.nodes[row].elements|);
    assert SystemMatrix(c)[row] == RowFold(c, row, |c.nodes[row].elements|).coeffs;
    assert SystemRhs(c)[row] == RowFold(c, row, |c.nodes[row].elements|).rhs;
  }
}
