/**
 * The cost model: a node costs the sum of length × capacity over its wires plus
 * its `max_wires`; a network costs the sum of its node costs. Lengths,
 * capacities and sums are unbounded naturals here.
 */
module Cost {
  import opened Entities

  function WireCost(w: Wire): nat {
    w.length * w.capacity
  }

  /** Sum of length × capacity over `ws`. */
  function WireSum(ws: seq<Wire>): nat {
    if ws == [] then 0 else WireCost(ws[0]) + WireSum(ws[1..])
  }

  function NodeCost(n: Node): nat {
    WireSum(n.wires) + n.maxWires
  }

  /** Sum of the node costs of `ns`. */
  function NetworkCost(ns: seq<Node>): nat {
    if ns == [] then 0 else NodeCost(ns[0]) + NetworkCost(ns[1..])
  }

  /** `CalculateCost`: accumulate length × capacity over the wires, then add `max_wires`. */
  method CalculateCost(node: Node) returns (cost: nat)
    ensures cost == WireSum(node.wires) + node.maxWires
  {
    cost := 0;
    var i := 0;
    while i < |node.wires|
      invariant 0 <= i <= |node.wires|
      invariant cost == WireSum(node.wires[..i])
    {
      assert node.wires[..i + 1] == node.wires[..i] + [node.wires[i]];
      WireSumAppend(node.wires[..i], [node.wires[i]]);
      cost := cost + node.wires[i].length * node.wires[i].capacity;
      i := i + 1;
    }
    assert node.wires[..i] == node.wires;
    cost := cost + node.maxWires;
  }

  /** Wire cost is additive over concatenation. */
  lemma {:induction false} WireSumAppend(a: seq<Wire>, b: seq<Wire>)
    ensures WireSum(a + b) == WireSum(a) + WireSum(b)
  {
    if a == [] {
      assert a + b == b;
    } else {
      assert (a + b)[1..] == a[1..] + b;
      WireSumAppend(a[1..], b);
    }
  }

  /** Network cost is additive over concatenation. */
  lemma {:induction false} NetworkCostAppend(a: seq<Node>, b: seq<Node>)
    ensures NetworkCost(a + b) == NetworkCost(a) + NetworkCost(b)
  {
    if a == [] {
      assert a + b == b;
    } else {
      assert (a + b)[1..] == a[1..] + b;
      NetworkCostAppend(a[1..], b);
    }
  }

  /** Replacing one node changes the network cost by exactly the difference of that node's cost. */
  lemma {:induction false} NetworkCostUpdate(ns: seq<Node>, p: nat, n: Node)
    requires p < |ns|
    ensures NetworkCost(ns[p := n]) + NodeCost(ns[p]) == NetworkCost(ns) + NodeCost(n)
  {
    if p == 0 {
      assert ns[p := n][1..] == ns[1..];
    } else {
      assert ns[p := n][1..] == ns[1..][p - 1 := n];
      NetworkCostUpdate(ns[1..], p - 1, n);
    }
  }

  /** Two node collections whose node costs agree position by position have the same network cost. */
  lemma {:induction false} NetworkCostPointwise(a: seq<Node>, b: seq<Node>)
    requires |a| == |b|
    requires forall i :: 0 <= i < |a| ==> NodeCost(a[i]) == NodeCost(b[i])
    ensures NetworkCost(a) == NetworkCost(b)
  {
    if a != [] {
      NetworkCostPointwise(a[1..], b[1..]);
    }
  }
}
