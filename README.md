# DC circuit solver, modelled in Dafny

This project models the DC analysis core of a small circuit simulator (`circuit.py`). A circuit holds a list of nodes and a list of two-pin elements: resistors and DC voltage sources. Each node has:

- a positional `index`;
- a `known` flag, which is true for a ground node;
- a `voltage`;
- an adjacency list of elements.

Each element has a top (+) pin and a bottom (−) pin. The circuit can:

- register nodes and elements;
- bind an element's pin to a node;
- merge one node into another;
- simulate.

Simulation has four passes:

1. Every voltage source, in element order, sets its top node to its bottom node's voltage plus its value, and marks that node known.
2. Every node contributes one row of a linear system. A known node gets a unit row. Any other node gets a nodal row: each listed resistor adds `1/R` on the diagonal and `−1/R` in the column of an unknown far node. A known far node adds `V/R` to the right-hand side, but only the first time that node is met.
3. The system is solved, and each node takes its entry of the solution.
4. Every resistor recomputes its voltage and current from its pins' nodes.

The model has the source's own form:

- `Circuit` (circuit.dfy) is a class whose `nodes` and `elements` fields its methods update in place, with loops and their invariants.
- Every method is proved against a function on `CircuitState` values. Those functions are in values.dfy, topology.dfy, assembly.dfy and evaluation.dfy.
- The lemmas about the functions are in topology.dfy, assembly.dfy, rows.dfy and evaluation.dfy.
- Handles are positions: a node is named by its position in `nodes`, and an element by its position in `elements`. A pin is `Unbound` (the private placeholder node every element starts with) or `At(p)`.
- Values are exact reals.
- The dense solve is a caller-supplied function. `None` stands for the exception `np.linalg.solve` raises. `SolverSound` requires any vector the solver returns to solve the system it was given; it does not say when `None` may come back. `SolverComplete` adds that a system with exactly one solution gets a vector.

The four circuits of the repository's test file are proved in scenarios.dfy. In each, every solution the solver may return yields the expected values:

- the 5 V / 10 Ω circuit;
- the divider;
- the bridge, for which the exact values are 53/31 V and so on, and these round to the test's expected figures;
- the node merge.

Two of these scenarios are also stated as sequences of calls on a `Circuit` object, and verified in that form.

## Model

| member | source | states |
|---|---|---|
| CircuitValues.ConnectToNode | circuit.py:30-36 | pin 0 binds only the top pin, pin 1 only the bottom pin, and any other pin number is an `InvalidPinNumber` error; nothing else about the element changes |
| CircuitValues.NewNode | circuit.py:16-21 | defines a fresh node: the given display index, not known, at 0 V, with an empty adjacency list |
| CircuitValues.NewGround | circuit.py:39-43 | defines a ground node: a fresh node whose `known` flag is set, so its 0 V is fixed from the start |
| CircuitValues.NewResistor | circuit.py:46-49 | defines a fresh resistor: its resistance and display number, both pins on the placeholder node, voltage and current 0 |
| CircuitValues.NewVoltageSource | circuit.py:59-69 | defines a fresh DC source: its display number, both pins on the placeholder node, its nominal value stored as its voltage, current 0 |
| Topology.Connect | circuit.py:91-96 | pin 0 binds only the top pin, pin 1 only the bottom pin, any other pin binds nothing; in every case the element is appended once to the end of the node's adjacency list and no other node or element changes |
| Topology.ConnectKeepsInvariants | circuit.py:91-96 | binding a pin keeps indices equal to positions, every pin at a registered node, and every binding recorded in its node's list |
| Topology.ConnectKeepsConsistent | circuit.py:91-96 | after a binding, every pin is still recorded in its node's adjacency list at least as often as the element has pins there |
| Topology.RebindOne | circuit.py:101-104 | defines one pass of the rebinding loop: the top pin moves to the surviving node if it is at the dropped node; otherwise the bottom pin is set to the surviving node, wherever it was |
| Topology.Rebind | circuit.py:100-104 | defines the rebinding loop: `RebindOne` for each entry of the dropped node's list, in order, repeated entries included |
| Topology.Reindexed | circuit.py:105-106 | defines the reindexing loop: every node from the dropped position on has its index lowered by one, and the nodes before it are untouched |
| Topology.RemoveAt | circuit.py:107 | defines the removal of the dropped node: it leaves the list and the other nodes keep their order |
| Topology.ShiftPins | circuit.py:105-107 | defines how pins follow the removal: a pin past the removed position names one position lower, so it still names the same node |
| Topology.Merge | circuit.py:98-107 | defines `connectNodetoNode`: the surviving node's list gains the dropped node's, the listed elements are rebound, later nodes are reindexed and the dropped node is removed |
| Topology.MergeNodes | circuit.py:98-107 | a merge leaves one node fewer; the surviving node's list is its old list followed by the dropped node's, in order; every other node keeps its list, voltage and known flag; every index again equals its position |
| Topology.RebindDrains | circuit.py:100-104 | after each step of the rebinding loop, an element has no more pins at the dropped node than it has entries left to process |
| Topology.RebindGathers | circuit.py:100-104 | rebinding adds pins only at the surviving node, at most one per processed entry |
| Topology.RebindTargets | circuit.py:100-104 | every pin after rebinding is either the pin it was or the surviving node |
| Topology.RebindUnlisted | circuit.py:100-104 | an element the dropped node does not list is not touched by rebinding |
| Topology.RebindClearsDrop | circuit.py:100-104 | when every binding was made through `connectElementtoNode`, no pin refers to the dropped node after rebinding |
| Topology.ShiftPinsAt | circuit.py:105-107 | renumbering past the removed position keeps how many pins an element has at each surviving node |
| Topology.MergedPinsAt | circuit.py:98-107 | one node and one element of the merge's consistency proof: pins at a surviving node stay recorded in its list |
| Topology.MergePins | circuit.py:100-107 | a pin at the dropped node ends at the surviving node; an element the dropped node did not list keeps its pins, renumbered past the removed position |
| Topology.RebindKeepsRest | circuit.py:100-104 | rebinding changes pins only: every element keeps its kind, display number, voltage and current |
| Topology.MergeKeepsElementData | circuit.py:98-107 | a merge keeps the element count and changes pins only: every element keeps its kind, display number, voltage and current |
| Topology.MergeKeepsWellFormed | circuit.py:98-107 | a merge keeps indices equal to positions, pins at registered nodes and list entries at registered elements |
| Topology.MergeKeepsConsistent | circuit.py:98-107 | a merge keeps every pin binding recorded in its node's adjacency list |
| Assembly.PinVoltage | circuit.py:27-28 | defines what a pin reads: its node's voltage, or 0 for the placeholder node `Node("")` an unbound pin refers to |
| Assembly.DriveTop | circuit.py:71-75 | defines one source's `simulate` on the nodes: its top node takes what the bottom pin reads plus the source's value and becomes known; a write to the placeholder node is lost |
| Assembly.RunSources | circuit.py:115-117 | the source pass changes only node voltages and known flags: the node count, indices and adjacency lists stay |
| Assembly.QuietSources | circuit.py:72 | defines the sources' side of the pass: every voltage source's current is set to 0 and every other element is untouched |
| Assembly.Prepare | circuit.py:115-117 | defines the circuit the assembly sees: the source pass applied to the nodes and `QuietSources` to the elements |
| Assembly.QuietSourcesSettled | circuit.py:71-72 | zeroing a source's current again changes nothing |
| Assembly.SourcesMarkKnown | circuit.py:115-117 | after the source pass a node is known exactly when it was known before or some voltage source has its top pin there; a node no source drives is left as it was |
| Assembly.DriveTopElsewhere | circuit.py:73-74 | simulating a source changes no node other than its top node |
| Assembly.SourceFixesTop | circuit.py:71-75 | after the source pass a source's top node is known and sits exactly the source's value above what its bottom pin then reads, even when an earlier source set the bottom node, provided no later source drives either node and the bottom pin is not at the top node |
| Assembly.PrepareKeepsInvariants | circuit.py:115-117 | the source pass keeps the circuit's invariants |
| Assembly.OtherPin | circuit.py:126 | defines the far end of an element seen from a node: the bottom pin if the top pin is at that node, the top pin otherwise |
| Assembly.RowStep | circuit.py:125-132 | defines one adjacency entry of an unknown node's row: a resistor adds `1/R` at the node's own column and `−1/R` at an unknown far node's column; a known far node not yet in `usedKnownNodes` adds `V/R` to the right-hand side and joins it; a source adds nothing |
| Assembly.RowFold | circuit.py:124-132 | defines an unknown node's row after its first `k` entries, starting from a zero row, right-hand side 0 and empty `usedKnownNodes` |
| Assembly.Row | circuit.py:119-133 | defines one row of the system: a unit row with the node's voltage on the right if the node is known, the folded nodal row otherwise |
| Assembly.SystemMatrix | circuit.py:112-133 | defines the matrix `A`: one row per node, in list order |
| Assembly.SystemRhs | circuit.py:113-133 | defines the right-hand side `b`: one entry per node, in list order |
| Assembly.IsSolution | circuit.py:135 | defines a solution of `A x = b`: matching sizes and every row's dot product with `x` equal to its right-hand side |
| Assembly.SolverSound | circuit.py:135 | defines the solver's promise: any vector it returns solves the system it was given; `None` stands for the exception and is not constrained |
| Assembly.SolverComplete | circuit.py:135 | defines the other half of that promise: a system with exactly one solution gets a vector rather than `None` |
| RowFacts.KnownNodeRow | circuit.py:119-122 | a known node's row is 1 at its own column and 0 elsewhere, with its voltage on the right-hand side |
| RowFacts.KnownNodesKeepVoltage | circuit.py:119-122 | the same unit row, and so every solution gives that node exactly its voltage |
| RowFacts.RowColumns | circuit.py:123-129 | each coefficient of an unknown node's row is the sum over its list of `1/R` on the diagonal minus `1/R` at each unknown far node; sources add nothing |
| RowFacts.KnownColumnsStayZero | circuit.py:129 | a known node other than the row's own gets coefficient 0 |
| RowFacts.DiagonalIsConductance | circuit.py:128 | the diagonal entry is the total conductance of the listed resistors, when none has both pins at the node |
| RowFacts.UsedAreReached | circuit.py:130-132 | `usedKnownNodes` holds exactly the known far nodes met so far |
| RowFacts.RepeatedKnownNeighbourIgnored | circuit.py:130-132 | a resistor to a known node already credited adds nothing to the right-hand side |
| RowFacts.FirstKnownNeighbourCredited | circuit.py:130-132 | the first resistor to a known node adds that node's voltage over its resistance to the right-hand side |
| RowFacts.RowStepCoeffs | circuit.py:128-129 | a resistor entry adds its conductance at the node's own column and subtracts it at the far node's column if that node is unknown, 0 otherwise |
| RowFacts.RowStepRhs | circuit.py:130-132 | when no two resistors reach the same known node, each resistor entry adds its known far node's voltage over its resistance |
| RowFacts.EntryBalance | circuit.py:125-132 | each entry changes (row · x) − b by exactly the current it adds to the node's outflow |
| RowFacts.KnownNeighbourBalance | circuit.py:127-132 | `EntryBalance` for a resistor whose far node is known |
| RowFacts.UnknownNeighbourBalance | circuit.py:127-129 | `EntryBalance` for a resistor whose far node is unknown |
| RowFacts.RowBalance | circuit.py:124-132 | (row · x) − b is the outflow through the node's listed resistors, when every known node sits at its voltage in `x` |
| RowFacts.KirchhoffAtUnknownNode | circuit.py:123-135 | any solution balances the currents at an unknown node whose resistors reach distinct known nodes |
| Evaluation.WriteBack | circuit.py:137-138 | node `i` takes `x[i]` and nothing else about it changes |
| Evaluation.EvaluateResistor | circuit.py:51-54 | a resistor's voltage becomes the magnitude of its top node's voltage less that of its bottom node's; its current times its resistance equals that voltage; nothing else changes |
| Evaluation.Evaluated | circuit.py:142-146 | defines the output pass on the elements: every resistor evaluated against the given nodes, every voltage source left alone |
| Evaluation.Finish | circuit.py:136-146 | defines the circuit after the solve: the solution written back to the nodes, then the output pass against those new voltages |
| Evaluation.FinishEvaluates | circuit.py:142-145 | after the output pass every resistor obeys that law against the written-back voltages, every source is untouched, and no element changes its kind, number or pins |
| Evaluation.PinReadsSolution | circuit.py:137-138 | after the write-back a bound pin reads its node's entry of the solution |
| Evaluation.FinishKeepsInvariants | circuit.py:136-140 | the write-back and output pass keep the circuit's invariants |
| Evaluation.KnownNodeKeepsVoltage | circuit.py:39-43 | a node known before simulating (a ground node) and driven by no source ends at its starting voltage |
| Evaluation.SourceVoltageHolds | circuit.py:71-75 | after simulating, a source's top node is exactly its value above its bottom node, when the bottom node is known once the source pass is over (ground, or a node an earlier source drives) and no later source drives either node |
| Evaluation.SourceKeepsValue | circuit.py:71-75 | simulating leaves a source's voltage at its nominal value, with current 0 and its pins unchanged |
| Names.NatToDecimal | circuit.py:57 | the numeral is digits only, one digit exactly for numbers below 10, and starts with '0' only for 0: no leading zeros, as `str` writes it |
| Names.IntToDecimal | circuit.py:57 | `str` of any integer: the numeral of its magnitude, with a leading '-' when negative, and never empty |
| Names.NatToDecimalRoundTrip | circuit.py:57 | the decimal numeral of a display number reads back as that number |
| Names.IntToDecimalRoundTrip | circuit.py:57 | the same for negative numbers, written with a leading '-' |
| Names.ElementName | circuit.py:56-57 | a name is "R" for a resistor ("V" for a source), followed by the display number in decimal |
| Names.NamesIdentify | circuit.py:76-77 | two elements have the same name exactly when they are of the same kind and carry the same display number |
| CircuitModel.SourceStep | circuit.py:115-117 | one more element of the source pass: a source drives its top node and has its current zeroed, and any other element changes nothing |
| CircuitModel.Circuit.constructor | circuit.py:80-82 | a new circuit has no nodes and no elements |
| CircuitModel.Circuit.AddElement | circuit.py:84-85 | the element is appended and the nodes are unchanged; an element with no pins bound keeps the invariants |
| CircuitModel.Circuit.AddNode | circuit.py:87-88 | the node is appended and the elements are unchanged; a fresh node at the next position keeps the invariants |
| CircuitModel.Circuit.ConnectElementToNode | circuit.py:91-96 | the new state is `Connect` of the old one, and the invariants are kept |
| CircuitModel.Circuit.ConnectNodeToNode | circuit.py:98-108 | the concatenation, the rebinding loop, the reindexing loop and the removal leave `Merge` of the old state, and the invariants are kept |
| CircuitModel.Circuit.SimulateSource | circuit.py:71-75 | the source's current becomes 0; its top node takes the bottom node's voltage plus its value and becomes known |
| CircuitModel.Circuit.RunVoltageSources | circuit.py:115-117 | the loop over the elements leaves exactly `Prepare` of the old state |
| CircuitModel.Circuit.AssembleSystem | circuit.py:118-133 | the nested loops with `+=`, `-=` and `usedKnownNodes` build exactly `SystemMatrix` and `SystemRhs` |
| CircuitModel.Circuit.WriteBackVoltages | circuit.py:137-138 | node `i` takes `x[i]`; the elements are unchanged |
| CircuitModel.Circuit.SimulateResistor | circuit.py:51-54 | the resistor becomes `EvaluateResistor` of itself, and the returned pair is its new voltage and current |
| CircuitModel.Circuit.OutputValues | circuit.py:142-146 | every resistor is evaluated against the current node voltages, and voltage sources are skipped |
| CircuitModel.Circuit.Simulate | circuit.py:110-140 | when the solver returns `None` (its exception) the circuit is left as the source pass made it; otherwise the solution has one entry per node and the circuit ends at `Finish` of the prepared state and that solution |
| Scenarios.OhmsLawBuilt | test_circuit.py:6-19 | the four bindings give node 0 both top pins and ground both bottom pins |
| Scenarios.OhmsLawPrepared | test_circuit.py:21 | the source pass puts node 0 at 5 V and marks it known |
| Scenarios.OhmsLaw | test_circuit.py:21-24 | every solution leaves the source at 5 V, and the resistor at 5 V and 0.5 A |
| Scenarios.OhmsLawSolvable | test_circuit.py:21 | (5, 0) solves the assembled system |
| Scenarios.OhmsLawUnique | test_circuit.py:21 | (5, 0) is the only solution of the assembled system |
| Scenarios.AddOhmsLawParts | test_circuit.py:7-15 | the test's calls add the source, the resistor, node 0 and the ground node, none connected, and keep the invariants |
| Scenarios.BuildOhmsLaw | test_circuit.py:16-19 | the test's four bindings on the object give the 5 V / 10 Ω circuit and keep its invariants |
| Scenarios.RunOhmsLaw | test_circuit.py:6-24 | the test's calls on a `Circuit` object keep its invariants and, when the solver answers, give the expected values; a solver that answers every uniquely solvable system does answer |
| Scenarios.DividerFirstHalf | test_circuit.py:42-45 | binding the source and R1 gives node 0 both their top pins, node 1 R1's bottom pin and ground the source's bottom pin |
| Scenarios.DividerSecondHalf | test_circuit.py:46-49 | binding R2 and R3 gives node 1 and ground both of them, in order |
| Scenarios.DividerBuilt | test_circuit.py:26-49 | the divider's bindings give the expected adjacency lists and pins |
| Scenarios.DividerSourcePass | test_circuit.py:51 | the source pass puts node 0 at 5 V and leaves node 1 unknown |
| Scenarios.DividerPrepared | test_circuit.py:26-51 | the same, for the circuit as built |
| Scenarios.DividerRow | test_circuit.py:51 | node 1's row is 1.25 on the diagonal with right-hand side 2.5; ground, reached twice, is credited once |
| Scenarios.DividerSystem | test_circuit.py:51 | row 1 of the assembled system is 1.25 on the diagonal with right-hand side 2.5 |
| Scenarios.DividerSystemSolution | test_circuit.py:51 | the assembled system's only solution is (5, 2, 0) |
| Scenarios.DividerSolution | test_circuit.py:26-51 | the simulation of the divider as built admits only the solution (5, 2, 0) |
| Scenarios.DividerSystemSolvable | test_circuit.py:51 | (5, 2, 0) solves the divider's assembled system |
| Scenarios.DividerSolvable | test_circuit.py:26-51 | so the simulation of the divider as built has that solution |
| Scenarios.NodalAnalysis | test_circuit.py:51-57 | the resistors carry 3 V and 1.5 A, 2 V and 1 A, and 2 V and 0.5 A |
| Scenarios.BridgeFirstQuarter | test_circuit.py:82-84 | the source's pins and R1's top pin bound as the test binds them |
| Scenarios.BridgeSecondQuarter | test_circuit.py:85-87 | R1's bottom pin and R2's pins bound as the test binds them |
| Scenarios.BridgeThirdQuarter | test_circuit.py:88-90 | R3's pins and R4's top pin bound as the test binds them |
| Scenarios.BridgeFourthQuarter | test_circuit.py:91-93 | R4's bottom pin and R5's pins bound, giving the expected adjacency lists |
| Scenarios.BridgeBuilt | test_circuit.py:59-93 | the bridge's bindings give the expected adjacency lists and pins |
| Scenarios.BridgeSourcePass | test_circuit.py:95 | the source pass puts node 0 at 5 V and leaves nodes 1 and 2 unknown |
| Scenarios.BridgePrepared | test_circuit.py:59-95 | the same, for the circuit as built |
| Scenarios.BridgeAssemblable | test_circuit.py:95 | every resistor listed at an unknown node leads to a registered node |
| Scenarios.BridgeRowOne | test_circuit.py:95 | node 1's row is (0, 1.7, −0.2, 0) with right-hand side 5 |
| Scenarios.BridgeRowTwo | test_circuit.py:95 | node 2's row is (0, −0.2, 47/60, 0) with right-hand side 5/3 |
| Scenarios.BridgeSystem | test_circuit.py:95 | rows 1 and 2 of the assembled system are (0, 1.7, −0.2, 0) with 5 and (0, −0.2, 47/60, 0) with 5/3 |
| Scenarios.BridgeEquations | test_circuit.py:95 | any solution satisfies the two nodal equations, with node 0 at 5 V and ground at 0 |
| Scenarios.BridgeSolution | test_circuit.py:95 | the only solution is (5, 102/31, 92/31, 0) |
| Scenarios.BridgeRowsBalance | test_circuit.py:95 | node 1 at 102/31 V and node 2 at 92/31 V satisfy both nodal rows |
| Scenarios.BridgeRowsHold | test_circuit.py:95 | every row of the bridge's assembled system, the two unit rows and the two nodal rows, holds at (5, 102/31, 92/31, 0) |
| Scenarios.BridgeSystemSolvable | test_circuit.py:95 | (5, 102/31, 92/31, 0) solves the bridge's assembled system |
| Scenarios.BridgeSolvable | test_circuit.py:59-95 | so the simulation of the bridge as built has that solution |
| Scenarios.BridgeCircuitValues | test_circuit.py:95-106 | the resistors carry 53/31, 102/31, 63/31, 92/31 and 10/31 V, and 53/31, 51/31, 21/31, 23/31 and 2/31 A |
| Scenarios.TwoTopsBuilt | test_circuit.py:108-123 | each resistor's top pin is at its own node |
| Scenarios.NodeConnection | test_circuit.py:124-128 | the merge leaves three nodes; node 0 lists both resistors, the first one first; both top pins are at node 0 |
| Scenarios.AddTwoTopsParts | test_circuit.py:109-121 | the test's calls add four fresh nodes and two unbound resistors and keep the invariants |
| Scenarios.BuildTwoTops | test_circuit.py:108-123 | the test's calls on a `Circuit` object build that circuit and keep its invariants |
| Scenarios.RunNodeConnection | test_circuit.py:108-128 | the merge on the object leaves three nodes, node 0 listing [r1, r2], and both top pins at node 0 |

## Left out

- The dense solve (`np.linalg.solve`, circuit.py:135) is a caller-supplied function with a contract. Pivoting and floating-point error are out of scope. `None` stands for its exception; beyond `SolverComplete`, the model does not say which matrices make it raise.
- Floating-point arithmetic: voltages, resistances and conductances are exact reals, so `abs` and division are exact, and there is no inf or NaN.
- Presentation fields are not modelled: the coordinates and size, the icon file name, the waveform `match` that only picks an icon, `tolerance`, and a node's `coordinates`.
- Ground's unused `node` attribute is not modelled.
- `CircuitElement.simulate`, the plain getter, is not modelled.
- The commented-out report line of `outputValues` is not modelled.
- The return values of the voltage source's `simulate` (its voltage and current) are not modelled. The circuit pass ignores them.
- Object identity becomes position. Python keeps references while it renumbers `index`. The model shifts every pin past the removed position instead, so pins keep naming the same nodes.
- A pin left at the dropped node becomes `Unbound`. This can only happen when a binding bypassed `connectElementtoNode`.
- The placeholder node an unbound pin refers to is `Unbound`. It reads 0 V, and a voltage source's write to it is lost, as in the source.
- Python's negative list indices and the `IndexError` for an out-of-range index are not modelled.
- CircuitModel.Circuit.ConnectElementToNode: requires both indices to be in range.
- CircuitModel.Circuit.ConnectNodeToNode: requires the circuit to be well formed and the two nodes to differ. Well formed means every node's `index` equals its position, every bound pin names a registered node (an unbound pin is allowed), and every adjacency entry names a registered element. The source relies on these without checking them.
- CircuitModel.Circuit.AssembleSystem: requires no zero resistance. It also requires every resistor listed at an unknown node to lead to a registered node. With the default `res=0`, or an unbound far pin, the source divides by zero or indexes the placeholder's empty index.
- CircuitModel.Circuit.Simulate: has the same requirement, stated on the circuit after the source pass.
- CircuitModel.Circuit.OutputValues: requires no zero resistance, because `current = voltage / R` divides by it.
- RowFacts.KirchhoffAtUnknownNode: holds only when no two resistors at the node lead to the same known node. With two resistors to one known node, the code's `usedKnownNodes` credits that node's voltage once, and the row no longer balances the currents. `RepeatedKnownNeighbourIgnored` states this behaviour as the code has it.
- Assembly.SourceFixesTop: excludes a source with both pins at the same node. There the top node ends at its own earlier voltage plus the value, so it cannot sit the value above itself.
- Evaluation.SourceVoltageHolds: holds only when the bottom node is known after the source pass and no later source drives either node. The source pass reads the bottom node's voltage before the solve, so a source whose bottom node stays unknown uses that node's old voltage. A later source that drives the bottom node again moves it after the top node was set.
- temp.py is not part of this model: it is an older copy of the same classes.
- gui.py is not part of this model: it is the PyQt user interface.
- elements/components.h, elements/circuit.h and main.cpp are not part of this model: they are an unfinished C++ port.
