/** The entities of the DC circuit model as values: nodes, two-pin elements,
    the pins that tie them together, and the circuit's two registries.

    A circuit keeps its nodes and its elements in two lists, and both kinds of
    entity are referred to by their position in those lists. */
module CircuitValues {

  datatype Option<T> = None | Some(value: T)

  /** Where one pin of a two-pin element is attached. `At(p)` is the node at
      position `p` of the circuit's node list; `Unbound` is the private
      placeholder node every element starts with, which belongs to no circuit,
      reads as 0 V and keeps nothing written to it. */
  datatype Pin = Unbound | At(node: nat)

  /** The element kinds the solver distinguishes. A voltage source keeps its
      nominal value in the element's `voltage` field. */
  datatype Kind = Resistor(resistance: real) | VoltageSource

  /** A two-pin element: pin 0 (`top`, +) and pin 1 (`bottom`, -). `index` is
      the element's display number, not its position. */
  datatype Element = Element(kind: Kind, index: int, top: Pin, bottom: Pin, voltage: real, current: real)

  /** An electrical node: its `index` (meant to equal its position), whether its
      voltage is already `known`, its `voltage`, and its adjacency list of
      element positions, one entry per connection made to it. */
  datatype Node = Node(index: int, known: bool, voltage: real, elements: seq<nat>)

  datatype CircuitState = CircuitState(nodes: seq<Node>, elements: seq<Element>)

  /** The failure of `ConnectToNode` on a pin number other than 0 or 1. */
  datatype PinError = InvalidPinNumber(pin: int)

  datatype Result<T> = Ok(value: T) | Err(error: PinError)

  /** A plain node, as `Node(index)` creates it. */
  function NewNode(index: int): Node {
    Node(index, false, 0.0, [])
  }

  /** A ground node: a node whose voltage (0) is known from the start. */
  function NewGround(index: int): Node {
    Node(index, true, 0.0, [])
  }

  /** A resistor with neither pin connected yet. */
  function NewResistor(index: int, resistance: real): Element {
    Element(Resistor(resistance), index, Unbound, Unbound, 0.0, 0.0)
  }

  /** A DC voltage source with neither pin connected yet; its nominal value is
      stored as its voltage. */
  function NewVoltageSource(index: int, value: real): Element {
    Element(VoltageSource, index, Unbound, Unbound, value, 0.0)
  }

  /** Binds one pin of a lone element to a node: pin 0 is the top (+) pin,
      pin 1 the bottom (-) pin, and any other pin number is an error. */
  function ConnectToNode(e: Element, pin: int, node: nat): (r: Result<Element>)
    ensures r.Ok? <==> pin == 0 || pin == 1
    ensures r.Err? ==> r.error == InvalidPinNumber(pin)
    ensures r.Ok? ==> r.value.top == (if pin == 0 then At(node) else e.top)
    ensures r.Ok? ==> r.value.bottom == (if pin == 1 then At(node) else e.bottom)
    ensures r.Ok? ==> r.value.(top := e.top, bottom := e.bottom) == e
  {
    if pin == 0 then Ok(e.(top := At(node)))
    else if pin == 1 then Ok(e.(bottom := At(node)))
    else Err(InvalidPinNumber(pin))
  }

  predicate PinIn(p: Pin, count: nat) {
    p.Unbound? || p.node < count
  }

  /** Every node's `index` equals its position in the list. */
  predicate IndexedByPosition(nodes: seq<Node>) {
    forall i :: 0 <= i < |nodes| ==> nodes[i].index == i
  }

  /** Every bound pin names a registered node. */
  predicate PinsRegistered(c: CircuitState) {
    forall k :: 0 <= k < |c.elements| ==>
      PinIn(c.elements[k].top, |c.nodes|) && PinIn(c.elements[k].bottom, |c.nodes|)
  }

  /** Every adjacency entry names a registered element. */
  predicate AdjacencyRegistered(c: CircuitState) {
    forall i, j :: 0 <= i < |c.nodes| && 0 <= j < |c.nodes[i].elements| ==>
      c.nodes[i].elements[j] < |c.elements|
  }

  /** The invariant the circuit's operations rely on and keep. */
  predicate WellFormed(c: CircuitState) {
    IndexedByPosition(c.nodes) && PinsRegistered(c) && AdjacencyRegistered(c)
  }

  /** How many of the element's two pins are bound to node `p`. */
  function PinsAt(e: Element, p: nat): nat {
    (if e.top == At(p) then 1 else 0) + (if e.bottom == At(p) then 1 else 0)
  }

  /** Every pin binding is recorded in the bound node's adjacency list, as often
      as the element has pins there. Bindings made through the circuit's own
      connect operation keep this; a list may hold more entries than bindings. */
  predicate Consistent(c: CircuitState) {
    forall i, k :: 0 <= i < |c.nodes| && 0 <= k < |c.elements| ==>
      PinsAt(c.elements[k], i) <= multiset(c.nodes[i].elements)[k]
  }
}
