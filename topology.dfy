/** The circuit's topology operations as functions on circuit states: binding an
    element's pin to a node, and merging one node into another. */
module Topology {
  import opened CircuitValues

  /** Binds pin `pin` of element `elementIndex` to node `nodeIndex` and records
      the element in that node's adjacency list. A pin number other than 0 or 1
      binds nothing, but the element is recorded all the same. */
  function Connect(c: CircuitState, elementIndex: nat, nodeIndex: nat, pin: int): (r: CircuitState)
    requires elementIndex < |c.elements| && nodeIndex < |c.nodes|
    ensures |r.nodes| == |c.nodes| && |r.elements| == |c.elements|
    ensures r.nodes[nodeIndex].elements == c.nodes[nodeIndex].elements + [elementIndex]
    ensures r.nodes[nodeIndex].(elements := c.nodes[nodeIndex].elements) == c.nodes[nodeIndex]
    ensures forall i :: 0 <= i < |c.nodes| && i != nodeIndex ==> r.nodes[i] == c.nodes[i]
    ensures r.elements[elementIndex].top == (if pin == 0 then At(nodeIndex) else c.elements[elementIndex].top)
    ensures r.elements[elementIndex].bottom == (if pin == 1 then At(nodeIndex) else c.elements[elementIndex].bottom)
    ensures r.elements[elementIndex].(top := c.elements[elementIndex].top,
                                      bottom := c.elements[elementIndex].bottom) == c.elements[elementIndex]
    ensures forall k :: 0 <= k < |c.elements| && k != elementIndex ==> r.elements[k] == c.elements[k]
  {
    var e := c.elements[elementIndex];
    var bound := if pin == 0 then e.(top := At(nodeIndex))
                 else if pin == 1 then e.(bottom := At(nodeIndex))
                 else e;
    var n := c.nodes[nodeIndex];
    CircuitState(c.nodes[nodeIndex := n.(elements := n.elements + [elementIndex])],
                 c.elements[elementIndex := bound])
  }

  /** Connecting keeps the circuit well formed and keeps every pin binding
      recorded in its node's adjacency list. */
  lemma ConnectKeepsInvariants(c: CircuitState, elementIndex: nat, nodeIndex: nat, pin: int)
    requires elementIndex < |c.elements| && nodeIndex < |c.nodes|
    ensures WellFormed(c) ==> WellFormed(Connect(c, elementIndex, nodeIndex, pin))
    ensures Consistent(c) ==> Consistent(Connect(c, elementIndex, nodeIndex, pin))
  {
    if Consistent(c) {
      ConnectKeepsConsistent(c, elementIndex, nodeIndex, pin);
    }
  }

  /** Binding a pin adds at most one pin at the node it binds to, and none
      anywhere else. */
  lemma BindAddsOnePin(c: CircuitState, elementIndex: nat, nodeIndex: nat, pin: int, i: nat)
    requires elementIndex < |c.elements| && nodeIndex < |c.nodes|
    ensures PinsAt(Connect(c, elementIndex, nodeIndex, pin).elements[elementIndex], i)
      <= PinsAt(c.elements[elementIndex], i) + (if i == nodeIndex then 1 else 0)
  {
  }

  lemma ConnectKeepsConsistent(c: CircuitState, elementIndex: nat, nodeIndex: nat, pin: int)
    requires elementIndex < |c.elements| && nodeIndex < |c.nodes| && Consistent(c)
    ensures Consistent(Connect(c, elementIndex, nodeIndex, pin))
  {
    var r := Connect(c, elementIndex, nodeIndex, pin);
    forall i, k | 0 <= i < |r.nodes| && 0 <= k < |r.elements|
      ensures PinsAt(r.elements[k], i) <= multiset(r.nodes[i].elements)[k]
    {
      assert PinsAt(c.elements[k], i) <= multiset(c.nodes[i].elements)[k];
      if i == nodeIndex {
        assert multiset(r.nodes[i].elements) == multiset(c.nodes[i].elements) + multiset{elementIndex};
      }
      if k == elementIndex {
        BindAddsOnePin(c, elementIndex, nodeIndex, pin, i);
      }
    }
  }

  // ---- merging two nodes ----

  /** The rebinding one adjacency entry of the dropped node causes: the element's
      top pin moves to `keep` if it is at `drop`, and otherwise its bottom pin
      is set to `keep`, wherever it was. */
  function RebindOne(e: Element, keep: nat, drop: nat): Element {
    if e.top == At(drop) then e.(top := At(keep)) else e.(bottom := At(keep))
  }

  /** Applies `RebindOne` for every entry of `moved`, in order. */
  function Rebind(elements: seq<Element>, moved: seq<nat>, keep: nat, drop: nat): (r: seq<Element>)
    requires forall j :: 0 <= j < |moved| ==> moved[j] < |elements|
    ensures |r| == |elements|
    decreases |moved|
  {
    if moved == [] then elements
    else
      var prior := Rebind(elements, moved[..|moved| - 1], keep, drop);
      var id := moved[|moved| - 1];
      prior[id := RebindOne(prior[id], keep, drop)]
  }

  /** Every node from position `from` on has its index lowered by one. */
  function Reindexed(nodes: seq<Node>, from: nat): seq<Node> {
    seq(|nodes|, i requires 0 <= i < |nodes| =>
      if i >= from then nodes[i].(index := nodes[i].index - 1) else nodes[i])
  }

  /** The position a surviving node moves to once position `drop` is removed. */
  function Shifted(i: nat, drop: nat): nat
    requires i != drop
  {
    if i < drop then i else i - 1
  }

  /** A pin after position `drop` is removed: a pin still at the removed node
      can no longer name a registered node. */
  function ShiftPin(p: Pin, drop: nat): Pin {
    match p
    case Unbound => Unbound
    case At(i) => if i == drop then Unbound else At(Shifted(i, drop))
  }

  function ShiftPins(elements: seq<Element>, drop: nat): seq<Element> {
    seq(|elements|, k requires 0 <= k < |elements| =>
      elements[k].(top := ShiftPin(elements[k].top, drop), bottom := ShiftPin(elements[k].bottom, drop)))
  }

  function RemoveAt(nodes: seq<Node>, drop: nat): seq<Node>
    requires drop < |nodes|
  {
    nodes[..drop] + nodes[drop + 1..]
  }

  /** Merges node `drop` into node `keep`: `keep`'s adjacency list gains
      `drop`'s, the elements listed at `drop` are rebound to `keep`, `drop` and
      every later node have their index lowered by one, and `drop` leaves the
      node list (so pins past it now name one position lower). */
  function Merge(c: CircuitState, keep: nat, drop: nat): CircuitState
    requires WellFormed(c) && keep < |c.nodes| && drop < |c.nodes| && keep != drop
  {
    var moved := c.nodes[drop].elements;
    var gathered := c.nodes[keep := c.nodes[keep].(elements := c.nodes[keep].elements + moved)];
    var rebound := Rebind(c.elements, moved, keep, drop);
    CircuitState(RemoveAt(Reindexed(gathered, drop), drop), ShiftPins(rebound, drop))
  }

  /** What a merge does to the node list: one node fewer, the surviving node
      holds its old adjacency list followed by the dropped node's, every other
      node keeps its list, voltage and known flag, and every index again equals
      its position. */
  lemma MergeNodes(c: CircuitState, keep: nat, drop: nat)
    requires WellFormed(c) && keep < |c.nodes| && drop < |c.nodes| && keep != drop
    ensures var r := Merge(c, keep, drop);
      && |r.nodes| == |c.nodes| - 1
      && |r.elements| == |c.elements|
      && r.nodes[Shifted(keep, drop)].elements == c.nodes[keep].elements + c.nodes[drop].elements
      && (forall i :: 0 <= i < |c.nodes| && i != drop ==>
            r.nodes[Shifted(i, drop)].known == c.nodes[i].known
            && r.nodes[Shifted(i, drop)].voltage == c.nodes[i].voltage
            && (i != keep ==> r.nodes[Shifted(i, drop)].elements == c.nodes[i].elements))
      && IndexedByPosition(r.nodes)
  {
    var r := Merge(c, keep, drop);
    forall i | 0 <= i < |c.nodes| && i != drop
      ensures r.nodes[Shifted(i, drop)].known == c.nodes[i].known
      ensures r.nodes[Shifted(i, drop)].voltage == c.nodes[i].voltage
      ensures i != keep ==> r.nodes[Shifted(i, drop)].elements == c.nodes[i].elements
    {
    }
  }

  /** The rebinding loop's progress: after the first `k` entries of `moved`,
      each element has no more pins at `drop` than it has entries left in
      `moved[k..]`, provided it had no more than its entries in all of `moved`
      to begin with. */
  lemma {:induction false} RebindDrains(elements: seq<Element>, moved: seq<nat>, keep: nat, drop: nat, k: nat)
    requires forall j :: 0 <= j < |moved| ==> moved[j] < |elements|
    requires keep != drop && k <= |moved|
    requires forall e :: 0 <= e < |elements| ==> PinsAt(elements[e], drop) <= multiset(moved)[e]
    ensures forall e :: 0 <= e < |elements| ==>
      PinsAt(Rebind(elements, moved[..k], keep, drop)[e], drop) <= multiset(moved[k..])[e]
  {
    if k == 0 {
      assert moved[..0] == [] && moved[0..] == moved;
    } else {
      RebindDrains(elements, moved, keep, drop, k - 1);
      assert moved[..k][..k - 1] == moved[..k - 1];
      assert moved[k - 1..] == [moved[k - 1]] + moved[k..];
      var prior := Rebind(elements, moved[..k - 1], keep, drop);
      var id := moved[k - 1];
      assert Rebind(elements, moved[..k], keep, drop) == prior[id := RebindOne(prior[id], keep, drop)];
      forall e | 0 <= e < |elements|
        ensures PinsAt(Rebind(elements, moved[..k], keep, drop)[e], drop) <= multiset(moved[k..])[e]
      {
        assert multiset(moved[k - 1..])[e] == (if e == id then 1 else 0) + multiset(moved[k..])[e];
      }
    }
  }

  /** Rebinding only ever moves pins onto `keep`: each entry of `moved` adds at
      most one pin at `keep`, and no other node gains a pin. */
  lemma {:induction false} RebindGathers(elements: seq<Element>, moved: seq<nat>, keep: nat, drop: nat, k: nat)
    requires forall j :: 0 <= j < |moved| ==> moved[j] < |elements|
    requires k <= |moved|
    ensures forall e, q :: 0 <= e < |elements| && q != keep ==>
      PinsAt(Rebind(elements, moved[..k], keep, drop)[e], q) <= PinsAt(elements[e], q)
    ensures forall e :: 0 <= e < |elements| ==>
      PinsAt(Rebind(elements, moved[..k], keep, drop)[e], keep) <= PinsAt(elements[e], keep) + multiset(moved[..k])[e]
  {
    if k == 0 {
      assert moved[..0] == [];
    } else {
      RebindGathers(elements, moved, keep, drop, k - 1);
      assert moved[..k][..k - 1] == moved[..k - 1];
      assert moved[..k] == moved[..k - 1] + [moved[k - 1]];
      var id := moved[k - 1];
      forall e | 0 <= e < |elements|
        ensures multiset(moved[..k])[e] == multiset(moved[..k - 1])[e] + (if e == id then 1 else 0)
      {
      }
    }
  }

  /** A shifted pin is at the new position of node `i` exactly when the old pin
      was at node `i`. */
  lemma ShiftPinsAt(e: Element, drop: nat, i: nat)
    requires i != drop
    ensures PinsAt(e.(top := ShiftPin(e.top, drop), bottom := ShiftPin(e.bottom, drop)), Shifted(i, drop))
         == PinsAt(e, i)
  {
  }

  /** When every binding is recorded, rebinding the dropped node's list leaves
      no pin at the dropped node, so no pin is lost when positions shift. */
  lemma RebindClearsDrop(c: CircuitState, keep: nat, drop: nat)
    requires WellFormed(c) && keep < |c.nodes| && drop < |c.nodes| && keep != drop
    requires Consistent(c)
    ensures var rebound := Rebind(c.elements, c.nodes[drop].elements, keep, drop);
      forall e :: 0 <= e < |rebound| ==> rebound[e].top != At(drop) && rebound[e].bottom != At(drop)
  {
    var moved := c.nodes[drop].elements;
    var rebound := Rebind(c.elements, moved, keep, drop);
    assert moved[..|moved|] == moved;
    assert moved[|moved|..] == [];
    RebindDrains(c.elements, moved, keep, drop, |moved|);
    forall e | 0 <= e < |rebound|
      ensures rebound[e].top != At(drop) && rebound[e].bottom != At(drop)
    {
      assert PinsAt(rebound[e], drop) == 0;
    }
  }

  /** A merge keeps the circuit well formed. */
  lemma MergeKeepsWellFormed(c: CircuitState, keep: nat, drop: nat)
    requires WellFormed(c) && keep < |c.nodes| && drop < |c.nodes| && keep != drop
    ensures WellFormed(Merge(c, keep, drop))
  {
    var moved := c.nodes[drop].elements;
    var rebound := Rebind(c.elements, moved, keep, drop);
    var r := Merge(c, keep, drop);
    MergeNodes(c, keep, drop);
    RebindTargets(c.elements, moved, keep, drop);
    forall k | 0 <= k < |r.elements|
      ensures PinIn(r.elements[k].top, |r.nodes|) && PinIn(r.elements[k].bottom, |r.nodes|)
    {
      assert PinIn(rebound[k].top, |c.nodes|) && PinIn(rebound[k].bottom, |c.nodes|);
    }
    forall j, m | 0 <= j < |r.nodes| && 0 <= m < |r.nodes[j].elements|
      ensures r.nodes[j].elements[m] < |r.elements|
    {
      var i := if j < drop then j else j + 1;
      assert Shifted(i, drop) == j;
      if i == keep {
        assert r.nodes[j].elements == c.nodes[keep].elements + moved;
      }
    }
  }

  /** A merge keeps every pin binding recorded in its node's adjacency list. */
  lemma MergeKeepsConsistent(c: CircuitState, keep: nat, drop: nat)
    requires WellFormed(c) && keep < |c.nodes| && drop < |c.nodes| && keep != drop
    requires Consistent(c)
    ensures Consistent(Merge(c, keep, drop))
  {
    var moved := c.nodes[drop].elements;
    var rebound := Rebind(c.elements, moved, keep, drop);
    var r := Merge(c, keep, drop);
    RebindClearsDrop(c, keep, drop);
    assert moved[..|moved|] == moved;
    RebindGathers(c.elements, moved, keep, drop, |moved|);
    MergeNodes(c, keep, drop);
    forall j, e | 0 <= j < |r.nodes| && 0 <= e < |r.elements|
      ensures PinsAt(r.elements[e], j) <= multiset(r.nodes[j].elements)[e]
    {
      var i := if j < drop then j else j + 1;
      MergedPinsAt(c, keep, drop, j, e, i);
    }
  }

  /** One node and one element of `MergeKeepsConsistent`. */
  lemma MergedPinsAt(c: CircuitState, keep: nat, drop: nat, j: nat, e: nat, i: nat)
    requires WellFormed(c) && keep < |c.nodes| && drop < |c.nodes| && keep != drop
    requires Consistent(c)
    requires i == (if j < drop then j else j + 1) && i < |c.nodes| && e < |c.elements|
    requires var rebound := Rebind(c.elements, c.nodes[drop].elements, keep, drop);
      && (i != keep ==> PinsAt(rebound[e], i) <= PinsAt(c.elements[e], i))
      && (i == keep ==> PinsAt(rebound[e], i) <= PinsAt(c.elements[e], i) + multiset(c.nodes[drop].elements)[e])
    requires var r := Merge(c, keep, drop);
      && |r.nodes| == |c.nodes| - 1
      && r.nodes[Shifted(keep, drop)].elements == c.nodes[keep].elements + c.nodes[drop].elements
      && (i != keep ==> r.nodes[Shifted(i, drop)].elements == c.nodes[i].elements)
    ensures var r := Merge(c, keep, drop);
      PinsAt(r.elements[e], j) <= multiset(r.nodes[j].elements)[e]
  {
    var moved := c.nodes[drop].elements;
    var rebound := Rebind(c.elements, moved, keep, drop);
    var r := Merge(c, keep, drop);
    assert Shifted(i, drop) == j;
    ShiftPinsAt(rebound[e], drop, i);
    assert r.elements[e] == rebound[e].(top := ShiftPin(rebound[e].top, drop), bottom := ShiftPin(rebound[e].bottom, drop));
    assert PinsAt(c.elements[e], i) <= multiset(c.nodes[i].elements)[e];
    if i == keep {
      assert multiset(r.nodes[j].elements) == multiset(c.nodes[keep].elements) + multiset(moved);
    }
  }

  /** Rebinding sets pins to `keep` and nothing else: each pin afterwards is
      either the pin it was or `keep`. */
  lemma {:induction false} RebindTargets(elements: seq<Element>, moved: seq<nat>, keep: nat, drop: nat)
    requires forall j :: 0 <= j < |moved| ==> moved[j] < |elements|
    ensures var r := Rebind(elements, moved, keep, drop);
      forall k :: 0 <= k < |r| ==>
        (r[k].top == elements[k].top || r[k].top == At(keep))
        && (r[k].bottom == elements[k].bottom || r[k].bottom == At(keep))
    decreases |moved|
  {
    if moved != [] {
      var front := moved[..|moved| - 1];
      RebindTargets(elements, front, keep, drop);
      var prior := Rebind(elements, front, keep, drop);
      var id := moved[|moved| - 1];
      assert Rebind(elements, moved, keep, drop) == prior[id := RebindOne(prior[id], keep, drop)];
    }
  }

  /** What a merge does to the pins, when every binding is recorded: a pin
      that was at the dropped node is now at the surviving node, and an element
      the dropped node did not list keeps its pins, renumbered past the removed
      position. */
  lemma MergePins(c: CircuitState, keep: nat, drop: nat)
    requires WellFormed(c) && keep < |c.nodes| && drop < |c.nodes| && keep != drop
    requires Consistent(c)
    ensures var r := Merge(c, keep, drop);
      forall e :: 0 <= e < |c.elements| ==>
        && (c.elements[e].top == At(drop) ==> r.elements[e].top == At(Shifted(keep, drop)))
        && (c.elements[e].bottom == At(drop) ==> r.elements[e].bottom == At(Shifted(keep, drop)))
        && (e !in c.nodes[drop].elements ==>
              r.elements[e].top == ShiftPin(c.elements[e].top, drop)
              && r.elements[e].bottom == ShiftPin(c.elements[e].bottom, drop))
  {
    var moved := c.nodes[drop].elements;
    RebindClearsDrop(c, keep, drop);
    RebindTargets(c.elements, moved, keep, drop);
    RebindUnlisted(c.elements, moved, keep, drop);
  }

  /** An element with no entry in `moved` is left alone by rebinding. */
  lemma {:induction false} RebindUnlisted(elements: seq<Element>, moved: seq<nat>, keep: nat, drop: nat)
    requires forall j :: 0 <= j < |moved| ==> moved[j] < |elements|
    ensures forall e :: 0 <= e < |elements| && e !in moved ==> Rebind(elements, moved, keep, drop)[e] == elements[e]
    decreases |moved|
  {
    if moved != [] {
      RebindUnlisted(elements, moved[..|moved| - 1], keep, drop);
      assert forall e :: e in moved[..|moved| - 1] ==> e in moved;
    }
  }

  /** Rebinding touches pins only: every element keeps its kind, index,
      voltage and current. */
  lemma {:induction false} RebindKeepsRest(elements: seq<Element>, moved: seq<nat>, keep: nat, drop: nat)
    requires forall j :: 0 <= j < |moved| ==> moved[j] < |elements|
    ensures var r := Rebind(elements, moved, keep, drop);
      forall e :: 0 <= e < |elements| ==>
        r[e].(top := elements[e].top, bottom := elements[e].bottom) == elements[e]
    decreases |moved|
  {
    if moved != [] {
      var front := moved[..|moved| - 1];
      RebindKeepsRest(elements, front, keep, drop);
      var prior := Rebind(elements, front, keep, drop);
      var id := moved[|moved| - 1];
      assert Rebind(elements, moved, keep, drop) == prior[id := RebindOne(prior[id], keep, drop)];
    }
  }

  /** A merge changes elements' pins and nothing else about them: each element
      keeps its kind, index, voltage and current, and the element list keeps
      its length. */
  lemma MergeKeepsElementData(c: CircuitState, keep: nat, drop: nat)
    requires WellFormed(c) && keep < |c.nodes| && drop < |c.nodes| && keep != drop
    ensures var r := Merge(c, keep, drop);
      |r.elements| == |c.elements|
      && forall e :: 0 <= e < |c.elements| ==>
        r.elements[e].(top := c.elements[e].top, bottom := c.elements[e].bottom) == c.elements[e]
  {
    RebindKeepsRest(c.elements, c.nodes[drop].elements, keep, drop);
  }
}
