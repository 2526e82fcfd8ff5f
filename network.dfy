/**
 * The network as the original program keeps it: one object owning the client
 * and node collections, changed in place by identifier assignment, wire
 * creation, related-client generation and the batch connection routines.
 * Each method states its new state through the functions of `Builder`.
 */
module Networks {
  import opened Entities
  import opened Cost
  import opened Builder

  class Network {
    var clients: seq<Client>
    var nodes: seq<Node>

    function Model(): Topology
      reads this
    {
      Topology(clients, nodes)
    }

    predicate Valid()
      reads this
    {
      WellFormed(Model())
    }

    /**
     * A network holding `clientCount` default clients and `nodeCount` default
     * nodes, as `main` builds it with `PushClientsToNetwork` and `PushNodesToNetwork`.
     */
    constructor (clientCount: nat, nodeCount: nat)
      ensures Valid()
      ensures clients == seq(clientCount, _ => UnsetClient)
      ensures nodes == seq(nodeCount, _ => EmptyNode)
    {
      clients := seq(clientCount, _ => UnsetClient);
      nodes := seq(nodeCount, _ => EmptyNode);
    }

    /** Append a client-wire to `node` and point `client` at it. */
    method CreateClientWire(node: nat, client: nat, length: nat, capacity: nat)
      requires Valid() && node < |nodes| && client < |clients|
      modifies this
      ensures Valid()
      ensures Model() == AttachClient(old(Model()), node, client, length, capacity)
      ensures ClientIds(clients) == ClientIds(old(clients)) && NodeIds(nodes) == NodeIds(old(nodes))
    {
      AttachClientWellFormed(Model(), node, client, length, capacity);
      nodes := nodes[node := nodes[node].(wires := nodes[node].wires + [Wire(length, capacity, node, ClientEnd(client))])];
      clients := clients[client := clients[client].(wire := Some(WireRef(node, |nodes[node].wires| - 1)))];
    }

    /** Append a wire towards `toNode` to `node`, then a wire towards `node` to `toNode`. */
    method CreateNodeWire(node: nat, toNode: nat, length: nat, capacity: nat)
      requires Valid() && node < |nodes| && toNode < |nodes|
      modifies this
      ensures Valid()
      ensures Model() == AttachNodes(old(Model()), node, toNode, length, capacity)
      ensures clients == old(clients) && NodeIds(nodes) == NodeIds(old(nodes))
    {
      AttachNodesWellFormed(Model(), node, toNode, length, capacity);
      nodes := nodes[node := nodes[node].(wires := nodes[node].wires + [Wire(length, capacity, node, NodeEnd(toNode))])];
      nodes := nodes[toNode := nodes[toNode].(wires := nodes[toNode].wires + [Wire(length, capacity, toNode, NodeEnd(node))])];
    }

    /** Append, in wire order, the client of every client-wire of node `p` to its related clients. */
    method GenerateRelatedNodes(p: nat)
      requires Valid() && p < |nodes|
      modifies this
      ensures Valid()
      ensures clients == old(clients)
      ensures nodes == old(nodes)[p := Refreshed(old(nodes[p]))]
    {
      ghost var ws := old(nodes[p].wires);
      ghost var related := old(nodes[p].relatedClients);
      assert ws[..0] == [] && related + [] == related;
      var i := 0;
      while i < |nodes[p].wires|
        invariant 0 <= i <= |ws|
        invariant clients == old(clients)
        invariant nodes == old(nodes)[p := old(nodes[p]).(relatedClients := related + WireClients(ws[..i]))]
      {
        assert ws[..i + 1] == ws[..i] + [ws[i]];
        WireClientsAppend(ws[..i], [ws[i]]);
        assert WireClients([ws[i]]) == ClientOf(ws[i]) + [];
        assert nodes[p].wires == ws;
        if nodes[p].wires[i].end.ClientEnd? {
          nodes := nodes[p := nodes[p].(relatedClients := nodes[p].relatedClients + [nodes[p].wires[i].end.client])];
          assert related + WireClients(ws[..i]) + [ws[i].end.client] == related + WireClients(ws[..i + 1]);
          assert nodes[p] == old(nodes[p]).(relatedClients := related + WireClients(ws[..i + 1]));
        } else {
          assert WireClients(ws[..i + 1]) == WireClients(ws[..i]) + [];
          assert nodes[p] == old(nodes[p]).(relatedClients := related + WireClients(ws[..i + 1]));
        }
        assert nodes == old(nodes)[p := old(nodes[p]).(relatedClients := related + WireClients(ws[..i + 1]))];
        i := i + 1;
      }
      assert ws[..i] == ws;
      RefreshNodeWellFormed(old(Model()), p);
    }

    /** The loop over every node that closes `ConnectClients` and `ConnectNodesManually`. */
    method GenerateAllRelated()
      requires Valid()
      modifies this
      ensures Valid()
      ensures Model() == RefreshAll(old(Model()))
    {
      var i := 0;
      while i < |nodes|
        invariant 0 <= i <= |nodes| == |old(nodes)|
        invariant Valid() && clients == old(clients)
        invariant forall q :: 0 <= q < i ==> nodes[q] == Refreshed(old(nodes[q]))
        invariant forall q :: i <= q < |nodes| ==> nodes[q] == old(nodes[q])
      {
        GenerateRelatedNodes(i);
        i := i + 1;
      }
    }

    /** Set client i's identifier to i + 1 for every i below `indexes`. */
    method GiveClientIndex(indexes: nat)
      requires Valid() && indexes <= |clients|
      modifies this
      ensures Valid()
      ensures nodes == old(nodes) && |clients| == |old(clients)|
      ensures forall i :: 0 <= i < indexes ==> clients[i] == old(clients[i]).(index := i + 1)
      ensures forall i :: indexes <= i < |clients| ==> clients[i] == old(clients[i])
    {
      var i := 0;
      while i < indexes
        invariant 0 <= i <= indexes
        invariant nodes == old(nodes) && |clients| == |old(clients)|
        invariant forall k :: 0 <= k < i ==> clients[k] == old(clients[k]).(index := k + 1)
        invariant forall k :: i <= k < |clients| ==> clients[k] == old(clients[k])
      {
        clients := clients[i := clients[i].(index := i + 1)];
        i := i + 1;
      }
    }

    /** Set node i's identifier to i + 1 and its `max_wires` to `defMaxWires` for every i below `indexes`. */
    method GiveNodeIndex(indexes: nat, defMaxWires: nat := DefaultMaxWires)
      requires Valid() && indexes <= |nodes|
      modifies this
      ensures Valid()
      ensures clients == old(clients) && |nodes| == |old(nodes)|
      ensures forall i :: 0 <= i < indexes ==> nodes[i] == old(nodes[i]).(index := i + 1, maxWires := defMaxWires)
      ensures forall i :: indexes <= i < |nodes| ==> nodes[i] == old(nodes[i])
    {
      var i := 0;
      while i < indexes
        invariant 0 <= i <= indexes
        invariant clients == old(clients) && |nodes| == |old(nodes)|
        invariant forall k :: 0 <= k < i ==> nodes[k] == old(nodes[k]).(index := k + 1, maxWires := defMaxWires)
        invariant forall k :: i <= k < |nodes| ==> nodes[k] == old(nodes[k])
      {
        nodes := nodes[i := nodes[i].(index := i + 1, maxWires := defMaxWires)];
        i := i + 1;
      }
    }

    /** Number clients 1..|clients| and nodes 1..|nodes|, independently; give every node `defMaxWires`. */
    method GiveNetworkIndex(defMaxWires: nat := DefaultMaxWires)
      requires Valid()
      modifies this
      ensures Valid()
      ensures DenseIds(ClientIds(clients)) && DenseIds(NodeIds(nodes))
      ensures |clients| == |old(clients)| && |nodes| == |old(nodes)|
      ensures forall i :: 0 <= i < |clients| ==> clients[i] == old(clients[i]).(index := i + 1)
      ensures forall i :: 0 <= i < |nodes| ==> nodes[i] == old(nodes[i]).(index := i + 1, maxWires := defMaxWires)
    {
      GiveClientIndex(|clients|);
      GiveNodeIndex(|nodes|, defMaxWires);
    }

    /**
     * The loop body shared by the batch routines for client-wires: find the
     * client and the node by identifier (the first match wins) and wire them.
     */
    method ConnectClientRow(clientId: nat, nodeId: nat, length: nat, capacity: nat)
      requires Valid() && clientId in ClientIds(clients) && nodeId in NodeIds(nodes)
      modifies this
      ensures Valid()
      ensures ClientIds(clients) == ClientIds(old(clients)) && NodeIds(nodes) == NodeIds(old(nodes))
      ensures Model() == AttachClient(old(Model()), FirstIndex(NodeIds(old(nodes)), nodeId).value,
                                      FirstIndex(ClientIds(old(clients)), clientId).value, length, capacity)
    {
      var client := FirstIndex(ClientIds(clients), clientId);
      var node := FirstIndex(NodeIds(nodes), nodeId);
      CreateClientWire(node.value, client.value, length, capacity);
    }

    /**
     * The loop body shared by the batch routines for node-wires: find both
     * nodes by identifier (the first match wins) and wire them together.
     */
    method ConnectNodeRow(fromId: nat, toId: nat, length: nat, capacity: nat)
      requires Valid() && fromId in NodeIds(nodes) && toId in NodeIds(nodes)
      modifies this
      ensures Valid()
      ensures clients == old(clients) && NodeIds(nodes) == NodeIds(old(nodes))
      ensures Model() == AttachNodes(old(Model()), FirstIndex(NodeIds(old(nodes)), fromId).value,
                                     FirstIndex(NodeIds(old(nodes)), toId).value, length, capacity)
    {
      var node1 := FirstIndex(NodeIds(nodes), fromId);
      var node2 := FirstIndex(NodeIds(nodes), toId);
      CreateNodeWire(node1.value, node2.value, length, capacity);
    }

    /** `ConnectClientsManually`: one client-wire per row, endpoints found by identifier; no refresh. */
    method ConnectClientsManually(links: seq<ClientLink>)
      requires Valid() && ClientLinksResolve(ClientIds(clients), NodeIds(nodes), links)
      modifies this
      ensures Valid()
      ensures Model() == ClientBatch(old(Model()), ClientIds(old(clients)), NodeIds(old(nodes)), links, |links|)
      ensures ClientIds(clients) == ClientIds(old(clients)) && NodeIds(nodes) == NodeIds(old(nodes))
    {
      ghost var clientIds := ClientIds(clients);
      ghost var nodeIds := NodeIds(nodes);
      var i := 0;
      while i < |links|
        invariant 0 <= i <= |links|
        invariant Valid() && ClientIds(clients) == clientIds && NodeIds(nodes) == nodeIds
        invariant Model() == ClientBatch(old(Model()), clientIds, nodeIds, links, i)
      {
        ClientBatchStep(old(Model()), clientIds, nodeIds, links, i);
        ConnectClientRow(links[i].client, links[i].node, links[i].length, links[i].capacity);
        i := i + 1;
      }
    }

    /** `ConnectNodesManually`: one mirrored wire pair per row, endpoints found by identifier, then a refresh of every node. */
    method ConnectNodesManually(links: seq<NodeLink>)
      requires Valid() && NodeLinksResolve(NodeIds(nodes), links)
      modifies this
      ensures Valid()
      ensures Model() == RefreshAll(NodeBatch(old(Model()), NodeIds(old(nodes)), links, |links|))
    {
      ghost var nodeIds := NodeIds(nodes);
      var i := 0;
      while i < |links|
        invariant 0 <= i <= |links|
        invariant Valid() && NodeIds(nodes) == nodeIds
        invariant Model() == NodeBatch(old(Model()), nodeIds, links, i)
      {
        NodeBatchStep(old(Model()), nodeIds, links, i);
        ConnectNodeRow(links[i].from, links[i].to, links[i].length, links[i].capacity);
        i := i + 1;
      }
      GenerateAllRelated();
    }

    /** `ConnectClients`: rows of (client id, node id) with a default length and capacity, then a refresh of every node. */
    method ConnectClients(pairs: seq<(nat, nat)>, defWireLen: nat := 1, defWireCap: nat := 1)
      requires Valid() && ClientLinksResolve(ClientIds(clients), NodeIds(nodes), ClientRows(pairs, defWireLen, defWireCap))
      modifies this
      ensures Valid()
      ensures Model() == RefreshAll(ClientBatch(old(Model()), ClientIds(old(clients)), NodeIds(old(nodes)),
                                                ClientRows(pairs, defWireLen, defWireCap), |pairs|))
    {
      ghost var clientIds := ClientIds(clients);
      ghost var nodeIds := NodeIds(nodes);
      var i := 0;
      while i < |pairs|
        invariant 0 <= i <= |pairs|
        invariant Valid() && ClientIds(clients) == clientIds && NodeIds(nodes) == nodeIds
        invariant Model() == ClientBatch(old(Model()), clientIds, nodeIds, ClientRows(pairs, defWireLen, defWireCap), i)
      {
        ClientRowsStep(old(Model()), clientIds, nodeIds, pairs, defWireLen, defWireCap, i);
        ConnectClientRow(pairs[i].0, pairs[i].1, defWireLen, defWireCap);
        i := i + 1;
      }
      GenerateAllRelated();
    }

    /** `ConnectNodes`: rows of (node id, node id) with a default length and capacity; no refresh. */
    method ConnectNodes(pairs: seq<(nat, nat)>, defWireLen: nat := 1, defWireCap: nat := 1)
      requires Valid() && NodeLinksResolve(NodeIds(nodes), NodeRows(pairs, defWireLen, defWireCap))
      modifies this
      ensures Valid()
      ensures Model() == NodeBatch(old(Model()), NodeIds(old(nodes)), NodeRows(pairs, defWireLen, defWireCap), |pairs|)
    {
      ghost var nodeIds := NodeIds(nodes);
      var i := 0;
      while i < |pairs|
        invariant 0 <= i <= |pairs|
        invariant Valid() && NodeIds(nodes) == nodeIds
        invariant Model() == NodeBatch(old(Model()), nodeIds, NodeRows(pairs, defWireLen, defWireCap), i)
      {
        NodeRowsStep(old(Model()), nodeIds, pairs, defWireLen, defWireCap, i);
        ConnectNodeRow(pairs[i].0, pairs[i].1, defWireLen, defWireCap);
        i := i + 1;
      }
    }

    /** `CalculateNetworkCost`: accumulate the cost of every node, in node order. */
    method CalculateNetworkCost() returns (cost: nat)
      ensures cost == NetworkCost(nodes)
    {
      cost := 0;
      var i := 0;
      while i < |nodes|
        invariant 0 <= i <= |nodes|
        invariant cost == NetworkCost(nodes[..i])
      {
        assert nodes[..i + 1] == nodes[..i] + [nodes[i]];
        NetworkCostAppend(nodes[..i], [nodes[i]]);
        var c := CalculateCost(nodes[i]);
        cost := cost + c;
        i := i + 1;
      }
      assert nodes[..i] == nodes;
    }
  }
}
