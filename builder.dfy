/**
 * The topology builder as functions on a topology value: attaching a client to
 * a node, wiring two nodes together, refreshing a node's related clients, and
 * the batches of connections that look endpoints up by identifier. The
 * `Network` class performs these steps in place; these functions state what
 * each step leaves behind, and the lemmas state what that means.
 */
module Builder {
  import opened Entities
  import opened Cost

  /* ---------- Single connections ---------- */

  /**
   * `CreateClientWire`: node p gets one more wire, carrying client c and no
   * far-end node, and client c refers to that new last wire.
   */
  function AttachClient(t: Topology, p: nat, c: nat, length: nat, capacity: nat): Topology
    requires p < |t.nodes| && c < |t.clients|
  {
    Topology(t.clients[c := t.clients[c].(wire := Some(WireRef(p, |t.nodes[p].wires|)))],
             t.nodes[p := t.nodes[p].(wires := t.nodes[p].wires + [Wire(length, capacity, p, ClientEnd(c))])])
  }

  /**
   * After attaching, client c is held by the last wire of node p, that node
   * has exactly one wire more, identifiers are unchanged, and every other
   * client and node is as it was.
   */
  lemma AttachClientHolds(t: Topology, p: nat, c: nat, length: nat, capacity: nat)
    requires p < |t.nodes| && c < |t.clients|
    ensures var r := AttachClient(t, p, c, length, capacity);
            ClientIds(r.clients) == ClientIds(t.clients) && NodeIds(r.nodes) == NodeIds(t.nodes)
            && r.clients[c].wire == Some(WireRef(p, |r.nodes[p].wires| - 1))
            && AttachedAt(r, c, r.clients[c].wire.value)
            && r.nodes[p].wires[..|t.nodes[p].wires|] == t.nodes[p].wires
            && (forall q :: 0 <= q < |t.nodes| && q != p ==> r.nodes[q] == t.nodes[q])
            && (forall d :: 0 <= d < |t.clients| && d != c ==> r.clients[d] == t.clients[d])
  {
    var r := AttachClient(t, p, c, length, capacity);
    assert r.nodes[p].wires[..|t.nodes[p].wires|] == t.nodes[p].wires;
  }

  /** What attaching client c to node q leaves at every node p: one wire more at q, nothing else changed. */
  lemma AttachClientAt(t: Topology, q: nat, c: nat, length: nat, capacity: nat, p: nat)
    requires q < |t.nodes| && c < |t.clients| && p < |t.nodes|
    ensures AttachClient(t, q, c, length, capacity).nodes[p]
         == t.nodes[p].(wires := t.nodes[p].wires + if q == p then [Wire(length, capacity, p, ClientEnd(c))] else [])
  {
    if q != p {
      assert t.nodes[p].wires + [] == t.nodes[p].wires;
    }
  }

  /** Attaching a client keeps the topology well formed. */
  lemma AttachClientWellFormed(t: Topology, p: nat, c: nat, length: nat, capacity: nat)
    requires WellFormed(t) && p < |t.nodes| && c < |t.clients|
    ensures WellFormed(AttachClient(t, p, c, length, capacity))
  {
    var r := AttachClient(t, p, c, length, capacity);
    var ws := t.nodes[p].wires;
    forall d | 0 <= d < |r.clients| && r.clients[d].wire.Some?
      ensures AttachedAt(r, d, r.clients[d].wire.value)
    {
      if d != c {
        var w := t.clients[d].wire.value;
        assert AttachedAt(t, d, w);
        if w.node == p {
          assert r.nodes[p].wires[w.wire] == ws[w.wire];
        }
      }
    }
  }

  /**
   * `CreateNodeWire`: node a gets a wire towards b, then node b a wire towards
   * a, both with the same length and capacity and no client.
   */
  function AttachNodes(t: Topology, a: nat, b: nat, length: nat, capacity: nat): Topology
    requires a < |t.nodes| && b < |t.nodes|
  {
    var ns := t.nodes[a := t.nodes[a].(wires := t.nodes[a].wires + [Wire(length, capacity, a, NodeEnd(b))])];
    Topology(t.clients, ns[b := ns[b].(wires := ns[b].wires + [Wire(length, capacity, b, NodeEnd(a))])])
  }

  /** The wires that wiring a to b appends to the node at position p: one per end at p, a's first. */
  function PairWires(a: nat, b: nat, length: nat, capacity: nat, p: nat): seq<Wire> {
    (if a == p then [Wire(length, capacity, p, NodeEnd(b))] else [])
    + (if b == p then [Wire(length, capacity, p, NodeEnd(a))] else [])
  }

  /**
   * What wiring a to b leaves at every node p: its old wires followed by one
   * wire per end at p (two for a self-loop, none for a node not involved);
   * clients are untouched.
   */
  lemma AttachNodesAt(t: Topology, a: nat, b: nat, length: nat, capacity: nat, p: nat)
    requires a < |t.nodes| && b < |t.nodes| && p < |t.nodes|
    ensures var r := AttachNodes(t, a, b, length, capacity);
            r.clients == t.clients && |r.nodes| == |t.nodes|
            && r.nodes[p] == t.nodes[p].(wires := t.nodes[p].wires + PairWires(a, b, length, capacity, p))
  {
    var ws := t.nodes[p].wires;
    var wa := Wire(length, capacity, p, NodeEnd(b));
    var wb := Wire(length, capacity, p, NodeEnd(a));
    if a == p && b == p {
      assert ws + ([wa] + [wb]) == ws + [wa] + [wb];
    } else if a != p && b != p {
      assert ws + ([] + []) == ws;
    } else if a == p {
      assert ws + ([wa] + []) == ws + [wa];
    } else {
      assert ws + ([] + [wb]) == ws + [wb];
    }
  }

  /** Wiring two nodes keeps the topology well formed. */
  lemma AttachNodesWellFormed(t: Topology, a: nat, b: nat, length: nat, capacity: nat)
    requires WellFormed(t) && a < |t.nodes| && b < |t.nodes|
    ensures WellFormed(AttachNodes(t, a, b, length, capacity))
  {
    var r := AttachNodes(t, a, b, length, capacity);
    forall p, i | 0 <= p < |r.nodes| && 0 <= i < |r.nodes[p].wires|
      ensures r.nodes[p].wires[i].owner == p && EndInRange(r.nodes[p].wires[i].end, |r.clients|, |r.nodes|)
    {
      AttachNodesAt(t, a, b, length, capacity, p);
      if i >= |t.nodes[p].wires| {
        assert r.nodes[p].wires[i] in PairWires(a, b, length, capacity, p);
      }
    }
    forall d | 0 <= d < |r.clients| && r.clients[d].wire.Some?
      ensures AttachedAt(r, d, r.clients[d].wire.value)
    {
      var w := t.clients[d].wire.value;
      assert AttachedAt(t, d, w);
      AttachNodesAt(t, a, b, length, capacity, w.node);
      assert r.nodes[w.node].wires[w.wire] == t.nodes[w.node].wires[w.wire];
    }
  }

  /* ---------- Related clients ---------- */

  /** The client a wire carries, as a zero- or one-element sequence. */
  function ClientOf(w: Wire): seq<nat> {
    match w.end
    case ClientEnd(c) => [c]
    case NodeEnd(_) => []
  }

  /** The clients of the client-bearing wires of `ws`, in wire order. */
  function WireClients(ws: seq<Wire>): seq<nat> {
    if ws == [] then [] else ClientOf(ws[0]) + WireClients(ws[1..])
  }

  /** `GenerateRelatedNodes`: append the wire clients to the related list, without clearing it. */
  function Refreshed(n: Node): Node {
    n.(relatedClients := n.relatedClients + WireClients(n.wires))
  }

  /** The loop over all nodes that follows a connection batch. */
  function RefreshAll(t: Topology): (r: Topology)
    ensures r.clients == t.clients && |r.nodes| == |t.nodes|
    ensures forall p :: 0 <= p < |t.nodes| ==> r.nodes[p] == Refreshed(t.nodes[p])
  {
    Topology(t.clients, seq(|t.nodes|, p requires 0 <= p < |t.nodes| => Refreshed(t.nodes[p])))
  }

  /** A client appears in the wire clients exactly when some wire carries it. */
  lemma {:induction false} WireClientsMembers(ws: seq<Wire>, c: nat)
    ensures c in WireClients(ws) <==> exists i :: 0 <= i < |ws| && ws[i].end == ClientEnd(c)
  {
    if ws != [] {
      var rest := ws[1..];
      WireClientsMembers(rest, c);
      if c in WireClients(rest) {
        var i :| 0 <= i < |rest| && rest[i].end == ClientEnd(c);
        assert ws[i + 1].end == ClientEnd(c);
      }
      if exists i :: 0 <= i < |ws| && ws[i].end == ClientEnd(c) {
        var i :| 0 <= i < |ws| && ws[i].end == ClientEnd(c);
        if i > 0 {
          assert rest[i - 1].end == ClientEnd(c);
        }
      }
    }
  }

  /** Wire clients distribute over concatenation, so order follows wire order. */
  lemma {:induction false} WireClientsAppend(a: seq<Wire>, b: seq<Wire>)
    ensures WireClients(a + b) == WireClients(a) + WireClients(b)
  {
    if a == [] {
      assert a + b == b;
    } else {
      assert (a + b)[1..] == a[1..] + b;
      WireClientsAppend(a[1..], b);
    }
  }

  /** A second refresh appends the wire clients again: the list is never cleared. */
  lemma RefreshTwiceDuplicates(n: Node)
    ensures Refreshed(Refreshed(n)).relatedClients == n.relatedClients + WireClients(n.wires) + WireClients(n.wires)
  {
  }

  /** After a refresh, every wired client is among the related clients of the node owning its wire. */
  lemma RefreshListsAttachedClients(t: Topology, c: nat)
    requires WellFormed(t) && c < |t.clients| && t.clients[c].wire.Some?
    ensures c in RefreshAll(t).nodes[t.clients[c].wire.value.node].relatedClients
  {
    var w := t.clients[c].wire.value;
    WireClientsMembers(t.nodes[w.node].wires, c);
  }

  /**
   * Wiring client c to node p and then to node q re-points the client at q,
   * but the wire at p still carries c, so a refresh lists c at both nodes.
   */
  lemma RewiredClientListedTwice(t: Topology, p: nat, q: nat, c: nat, length: nat, capacity: nat, length2: nat, capacity2: nat)
    requires p < |t.nodes| && q < |t.nodes| && c < |t.clients|
    ensures var r := AttachClient(AttachClient(t, p, c, length, capacity), q, c, length2, capacity2);
            r.clients[c].wire.Some? && r.clients[c].wire.value.node == q
            && c in RefreshAll(r).nodes[p].relatedClients && c in RefreshAll(r).nodes[q].relatedClients
  {
    var t1 := AttachClient(t, p, c, length, capacity);
    var r := AttachClient(t1, q, c, length2, capacity2);
    var i := |t.nodes[p].wires|;
    AttachClientAt(t1, q, c, length2, capacity2, p);
    assert r.nodes[p].wires[i] == Wire(length, capacity, p, ClientEnd(c));
    WireClientsMembers(r.nodes[p].wires, c);
    assert r.nodes[q].wires[|t1.nodes[q].wires|].end == ClientEnd(c);
    WireClientsMembers(r.nodes[q].wires, c);
  }

  /** Refreshing one node keeps the topology well formed: every related client exists. */
  lemma RefreshNodeWellFormed(t: Topology, p: nat)
    requires WellFormed(t) && p < |t.nodes|
    ensures WellFormed(Topology(t.clients, t.nodes[p := Refreshed(t.nodes[p])]))
  {
    var r := Topology(t.clients, t.nodes[p := Refreshed(t.nodes[p])]);
    forall k | 0 <= k < |r.nodes[p].relatedClients|
      ensures r.nodes[p].relatedClients[k] < |r.clients|
    {
      if k >= |t.nodes[p].relatedClients| {
        var c := r.nodes[p].relatedClients[k];
        assert c in WireClients(t.nodes[p].wires);
        WireClientsMembers(t.nodes[p].wires, c);
      }
    }
  }

  /* ---------- Batches of connections ---------- */

  /** A `{client id, node id, length, capacity}` row of a client batch. */
  datatype ClientLink = ClientLink(client: nat, node: nat, length: nat, capacity: nat)

  /** A `{node id, node id, length, capacity}` row of a node batch. */
  datatype NodeLink = NodeLink(from: nat, to: nat, length: nat, capacity: nat)

  /** The rows of a batch given as id pairs, each with the default length and capacity. */
  function ClientRows(pairs: seq<(nat, nat)>, length: nat, capacity: nat): (links: seq<ClientLink>)
    ensures |links| == |pairs|
    ensures forall k :: 0 <= k < |pairs| ==> links[k] == ClientLink(pairs[k].0, pairs[k].1, length, capacity)
  {
    seq(|pairs|, k requires 0 <= k < |pairs| => ClientLink(pairs[k].0, pairs[k].1, length, capacity))
  }

  function NodeRows(pairs: seq<(nat, nat)>, length: nat, capacity: nat): (links: seq<NodeLink>)
    ensures |links| == |pairs|
    ensures forall k :: 0 <= k < |pairs| ==> links[k] == NodeLink(pairs[k].0, pairs[k].1, length, capacity)
  {
    seq(|pairs|, k requires 0 <= k < |pairs| => NodeLink(pairs[k].0, pairs[k].1, length, capacity))
  }

  /** Every identifier of every row names an existing client or node. */
  predicate ClientLinksResolve(clientIds: seq<nat>, nodeIds: seq<nat>, links: seq<ClientLink>) {
    forall k :: 0 <= k < |links| ==> links[k].client in clientIds && links[k].node in nodeIds
  }

  predicate NodeLinksResolve(nodeIds: seq<nat>, links: seq<NodeLink>) {
    forall k :: 0 <= k < |links| ==> links[k].from in nodeIds && links[k].to in nodeIds
  }

  /**
   * The identifier lists a batch resolves its rows against: one identifier per
   * client and per node, position for position.
   */
  predicate IdsFit(t: Topology, clientIds: seq<nat>, nodeIds: seq<nat>) {
    |clientIds| == |t.clients| && |nodeIds| == |t.nodes|
  }

  /**
   * `ConnectClientsManually` over its first n rows: attach each row's client to
   * its node, both looked up by identifier, the first match winning.
   */
  function ClientBatch(t: Topology, clientIds: seq<nat>, nodeIds: seq<nat>, links: seq<ClientLink>, n: nat): (r: Topology)
    requires IdsFit(t, clientIds, nodeIds) && n <= |links| && ClientLinksResolve(clientIds, nodeIds, links)
    ensures IdsFit(r, clientIds, nodeIds)
  {
    if n == 0 then t
    else
      var l := links[n - 1];
      AttachClient(ClientBatch(t, clientIds, nodeIds, links, n - 1),
                   FirstIndex(nodeIds, l.node).value, FirstIndex(clientIds, l.client).value, l.length, l.capacity)
  }

  /** One more row of a client batch attaches that row's client to that row's node. */
  lemma ClientBatchStep(t: Topology, clientIds: seq<nat>, nodeIds: seq<nat>, links: seq<ClientLink>, n: nat)
    requires IdsFit(t, clientIds, nodeIds) && n < |links| && ClientLinksResolve(clientIds, nodeIds, links)
    ensures ClientBatch(t, clientIds, nodeIds, links, n + 1)
            == AttachClient(ClientBatch(t, clientIds, nodeIds, links, n), FirstIndex(nodeIds, links[n].node).value,
                            FirstIndex(clientIds, links[n].client).value, links[n].length, links[n].capacity)
    ensures links[n].client in clientIds && links[n].node in nodeIds
  {
  }

  /** The same step for a batch given as id pairs with a default length and capacity. */
  lemma ClientRowsStep(t: Topology, clientIds: seq<nat>, nodeIds: seq<nat>, pairs: seq<(nat, nat)>, length: nat, capacity: nat, n: nat)
    requires IdsFit(t, clientIds, nodeIds) && n < |pairs| && ClientLinksResolve(clientIds, nodeIds, ClientRows(pairs, length, capacity))
    ensures ClientBatch(t, clientIds, nodeIds, ClientRows(pairs, length, capacity), n + 1)
            == AttachClient(ClientBatch(t, clientIds, nodeIds, ClientRows(pairs, length, capacity), n),
                            FirstIndex(nodeIds, pairs[n].1).value, FirstIndex(clientIds, pairs[n].0).value, length, capacity)
    ensures pairs[n].0 in clientIds && pairs[n].1 in nodeIds
  {
    ClientBatchStep(t, clientIds, nodeIds, ClientRows(pairs, length, capacity), n);
  }

  /**
   * `ConnectNodesManually` over its first n rows, before its refresh: wire each
   * row's two nodes together, both looked up by identifier, the first match winning.
   */
  function NodeBatch(t: Topology, nodeIds: seq<nat>, links: seq<NodeLink>, n: nat): (r: Topology)
    requires |nodeIds| == |t.nodes| && n <= |links| && NodeLinksResolve(nodeIds, links)
    ensures r.clients == t.clients && |r.nodes| == |t.nodes|
  {
    if n == 0 then t
    else
      var l := links[n - 1];
      AttachNodes(NodeBatch(t, nodeIds, links, n - 1),
                  FirstIndex(nodeIds, l.from).value, FirstIndex(nodeIds, l.to).value, l.length, l.capacity)
  }

  /** One more row of a node batch wires that row's two nodes together. */
  lemma NodeBatchStep(t: Topology, nodeIds: seq<nat>, links: seq<NodeLink>, n: nat)
    requires |nodeIds| == |t.nodes| && n < |links| && NodeLinksResolve(nodeIds, links)
    ensures NodeBatch(t, nodeIds, links, n + 1)
            == AttachNodes(NodeBatch(t, nodeIds, links, n), FirstIndex(nodeIds, links[n].from).value,
                           FirstIndex(nodeIds, links[n].to).value, links[n].length, links[n].capacity)
    ensures links[n].from in nodeIds && links[n].to in nodeIds
  {
  }

  /** The same step for a batch given as id pairs with a default length and capacity. */
  lemma NodeRowsStep(t: Topology, nodeIds: seq<nat>, pairs: seq<(nat, nat)>, length: nat, capacity: nat, n: nat)
    requires |nodeIds| == |t.nodes| && n < |pairs| && NodeLinksResolve(nodeIds, NodeRows(pairs, length, capacity))
    ensures NodeBatch(t, nodeIds, NodeRows(pairs, length, capacity), n + 1)
            == AttachNodes(NodeBatch(t, nodeIds, NodeRows(pairs, length, capacity), n), FirstIndex(nodeIds, pairs[n].0).value,
                           FirstIndex(nodeIds, pairs[n].1).value, length, capacity)
    ensures pairs[n].0 in nodeIds && pairs[n].1 in nodeIds
  {
    NodeBatchStep(t, nodeIds, NodeRows(pairs, length, capacity), n);
  }

  /** A client batch keeps the topology well formed. */
  lemma {:induction false} ClientBatchWellFormed(t: Topology, clientIds: seq<nat>, nodeIds: seq<nat>, links: seq<ClientLink>, n: nat)
    requires IdsFit(t, clientIds, nodeIds) && n <= |links| && ClientLinksResolve(clientIds, nodeIds, links)
    requires WellFormed(t)
    ensures WellFormed(ClientBatch(t, clientIds, nodeIds, links, n))
  {
    if n > 0 {
      ClientBatchWellFormed(t, clientIds, nodeIds, links, n - 1);
      var l := links[n - 1];
      AttachClientWellFormed(ClientBatch(t, clientIds, nodeIds, links, n - 1),
                             FirstIndex(nodeIds, l.node).value, FirstIndex(clientIds, l.client).value, l.length, l.capacity);
    }
  }

  /** A node batch keeps the topology well formed. */
  lemma {:induction false} NodeBatchWellFormed(t: Topology, nodeIds: seq<nat>, links: seq<NodeLink>, n: nat)
    requires |nodeIds| == |t.nodes| && n <= |links| && NodeLinksResolve(nodeIds, links)
    requires WellFormed(t)
    ensures WellFormed(NodeBatch(t, nodeIds, links, n))
  {
    if n > 0 {
      NodeBatchWellFormed(t, nodeIds, links, n - 1);
      var l := links[n - 1];
      AttachNodesWellFormed(NodeBatch(t, nodeIds, links, n - 1),
                            FirstIndex(nodeIds, l.from).value, FirstIndex(nodeIds, l.to).value, l.length, l.capacity);
    }
  }

  /** Every client the first n rows name is wired afterwards. */
  lemma {:induction false} ClientBatchWiresClients(t: Topology, clientIds: seq<nat>, nodeIds: seq<nat>, links: seq<ClientLink>, n: nat, k: nat)
    requires IdsFit(t, clientIds, nodeIds) && n <= |links| && ClientLinksResolve(clientIds, nodeIds, links)
    requires k < n
    ensures ClientBatch(t, clientIds, nodeIds, links, n).clients[FirstIndex(clientIds, links[k].client).value].wire.Some?
  {
    if k < n - 1 {
      ClientBatchWiresClients(t, clientIds, nodeIds, links, n - 1, k);
    }
  }

  /**
   * A client named by row k and by no later row (of the first n) hangs, after
   * those rows, on the node row k names: a later row for the same client would
   * move its wire reference.
   */
  lemma {:induction false} ClientBatchClientNode(t: Topology, clientIds: seq<nat>, nodeIds: seq<nat>, links: seq<ClientLink>, n: nat, k: nat)
    requires IdsFit(t, clientIds, nodeIds) && n <= |links| && ClientLinksResolve(clientIds, nodeIds, links)
    requires k < n
    requires forall j :: k < j < n ==> FirstIndex(clientIds, links[j].client) != FirstIndex(clientIds, links[k].client)
    ensures var r := ClientBatch(t, clientIds, nodeIds, links, n);
            var c := FirstIndex(clientIds, links[k].client).value;
            r.clients[c].wire.Some? && r.clients[c].wire.value.node == FirstIndex(nodeIds, links[k].node).value
  {
    if k < n - 1 {
      ClientBatchClientNode(t, clientIds, nodeIds, links, n - 1, k);
    }
  }

  /** The wire a client row appends to the node at position p: one if the row's node resolves to p, none otherwise. */
  function ClientRowWires(clientIds: seq<nat>, nodeIds: seq<nat>, l: ClientLink, p: nat): seq<Wire>
    requires l.client in clientIds && l.node in nodeIds
  {
    if FirstIndex(nodeIds, l.node) == Some(p)
    then [Wire(l.length, l.capacity, p, ClientEnd(FirstIndex(clientIds, l.client).value))]
    else []
  }

  /** The wire list of the node at position p, starting from `ws`, after the first n rows of a client batch. */
  function ClientRowsWires(ws: seq<Wire>, clientIds: seq<nat>, nodeIds: seq<nat>, links: seq<ClientLink>, n: nat, p: nat): seq<Wire>
    requires n <= |links| && ClientLinksResolve(clientIds, nodeIds, links)
  {
    if n == 0 then ws
    else ClientRowsWires(ws, clientIds, nodeIds, links, n - 1, p) + ClientRowWires(clientIds, nodeIds, links[n - 1], p)
  }

  /** The wire list of the node at position p, starting from `ws`, after the first n rows of a node batch. */
  function NodeRowsWires(ws: seq<Wire>, nodeIds: seq<nat>, links: seq<NodeLink>, n: nat, p: nat): seq<Wire>
    requires n <= |links| && NodeLinksResolve(nodeIds, links)
  {
    if n == 0 then ws
    else
      var l := links[n - 1];
      NodeRowsWires(ws, nodeIds, links, n - 1, p)
      + PairWires(FirstIndex(nodeIds, l.from).value, FirstIndex(nodeIds, l.to).value, l.length, l.capacity, p)
  }

  /** A client batch only appends to each node the wires of the rows that resolve to it, in row order. */
  lemma {:induction false} ClientBatchNodes(t: Topology, clientIds: seq<nat>, nodeIds: seq<nat>, links: seq<ClientLink>, n: nat, p: nat)
    requires IdsFit(t, clientIds, nodeIds) && n <= |links| && ClientLinksResolve(clientIds, nodeIds, links)
    requires p < |t.nodes|
    ensures ClientBatch(t, clientIds, nodeIds, links, n).nodes[p]
         == t.nodes[p].(wires := ClientRowsWires(t.nodes[p].wires, clientIds, nodeIds, links, n, p))
  {
    if n > 0 {
      ClientBatchNodes(t, clientIds, nodeIds, links, n - 1, p);
      var l := links[n - 1];
      AttachClientAt(ClientBatch(t, clientIds, nodeIds, links, n - 1),
                     FirstIndex(nodeIds, l.node).value, FirstIndex(clientIds, l.client).value, l.length, l.capacity, p);
    }
  }

  /** A node batch only appends to each node the wires of the rows that resolve to it, in row order. */
  lemma {:induction false} NodeBatchNodes(t: Topology, nodeIds: seq<nat>, links: seq<NodeLink>, n: nat, p: nat)
    requires |nodeIds| == |t.nodes| && n <= |links| && NodeLinksResolve(nodeIds, links)
    requires p < |t.nodes|
    ensures NodeBatch(t, nodeIds, links, n).nodes[p]
         == t.nodes[p].(wires := NodeRowsWires(t.nodes[p].wires, nodeIds, links, n, p))
  {
    if n > 0 {
      NodeBatchNodes(t, nodeIds, links, n - 1, p);
      var l := links[n - 1];
      AttachNodesAt(NodeBatch(t, nodeIds, links, n - 1),
                    FirstIndex(nodeIds, l.from).value, FirstIndex(nodeIds, l.to).value, l.length, l.capacity, p);
    }
  }

  /* ---------- Cost effects of construction ---------- */

  /** Attaching a client adds exactly that wire's length × capacity to the network cost. */
  lemma AttachClientCost(t: Topology, p: nat, c: nat, length: nat, capacity: nat)
    requires p < |t.nodes| && c < |t.clients|
    ensures NetworkCost(AttachClient(t, p, c, length, capacity).nodes) == NetworkCost(t.nodes) + length * capacity
  {
    var r := AttachClient(t, p, c, length, capacity);
    WireSumAppend(t.nodes[p].wires, [Wire(length, capacity, p, ClientEnd(c))]);
    NetworkCostUpdate(t.nodes, p, r.nodes[p]);
  }

  /** Wiring two nodes adds length × capacity twice to the network cost, self-loops included. */
  lemma AttachNodesCost(t: Topology, a: nat, b: nat, length: nat, capacity: nat)
    requires a < |t.nodes| && b < |t.nodes|
    ensures NetworkCost(AttachNodes(t, a, b, length, capacity).nodes) == NetworkCost(t.nodes) + 2 * (length * capacity)
  {
    var wab := Wire(length, capacity, a, NodeEnd(b));
    var wba := Wire(length, capacity, b, NodeEnd(a));
    var mid := t.nodes[a := t.nodes[a].(wires := t.nodes[a].wires + [wab])];
    WireSumAppend(t.nodes[a].wires, [wab]);
    NetworkCostUpdate(t.nodes, a, mid[a]);
    WireSumAppend(mid[b].wires, [wba]);
    NetworkCostUpdate(mid, b, mid[b].(wires := mid[b].wires + [wba]));
  }

  /** The first n rows of a client batch add the length × capacity of each row to the network cost. */
  lemma {:induction false} ClientBatchCost(t: Topology, clientIds: seq<nat>, nodeIds: seq<nat>, links: seq<ClientLink>, n: nat)
    requires IdsFit(t, clientIds, nodeIds) && n <= |links| && ClientLinksResolve(clientIds, nodeIds, links)
    ensures NetworkCost(ClientBatch(t, clientIds, nodeIds, links, n).nodes) == NetworkCost(t.nodes) + ClientLinkCost(links, n)
  {
    if n > 0 {
      ClientBatchCost(t, clientIds, nodeIds, links, n - 1);
      var l := links[n - 1];
      AttachClientCost(ClientBatch(t, clientIds, nodeIds, links, n - 1),
                       FirstIndex(nodeIds, l.node).value, FirstIndex(clientIds, l.client).value, l.length, l.capacity);
    }
  }

  /** The first n rows of a node batch add twice the length × capacity of each row to the network cost. */
  lemma {:induction false} NodeBatchCost(t: Topology, nodeIds: seq<nat>, links: seq<NodeLink>, n: nat)
    requires |nodeIds| == |t.nodes| && n <= |links| && NodeLinksResolve(nodeIds, links)
    ensures NetworkCost(NodeBatch(t, nodeIds, links, n).nodes) == NetworkCost(t.nodes) + 2 * NodeLinkCost(links, n)
  {
    if n > 0 {
      NodeBatchCost(t, nodeIds, links, n - 1);
      var l := links[n - 1];
      AttachNodesCost(NodeBatch(t, nodeIds, links, n - 1),
                      FirstIndex(nodeIds, l.from).value, FirstIndex(nodeIds, l.to).value, l.length, l.capacity);
    }
  }

  /** Refreshing related clients leaves every node cost, hence the network cost, unchanged. */
  lemma RefreshAllCost(t: Topology)
    ensures NetworkCost(RefreshAll(t).nodes) == NetworkCost(t.nodes)
  {
    NetworkCostPointwise(RefreshAll(t).nodes, t.nodes);
  }

  /** Sum of length × capacity over the first n client rows. */
  function ClientLinkCost(links: seq<ClientLink>, n: nat): nat
    requires n <= |links|
  {
    if n == 0 then 0 else ClientLinkCost(links, n - 1) + links[n - 1].length * links[n - 1].capacity
  }

  /** Sum of length × capacity over the first n node rows. */
  function NodeLinkCost(links: seq<NodeLink>, n: nat): nat
    requires n <= |links|
  {
    if n == 0 then 0 else NodeLinkCost(links, n - 1) + links[n - 1].length * links[n - 1].capacity
  }
}
