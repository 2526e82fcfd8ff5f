/**
 * The network that `main` assembles: seven default clients and three default
 * nodes, numbered, then connected by the client rows and node rows it passes,
 * with the node costs and network cost it prints; and the search that follows
 * its first `return`.
 */
module Scenario {
  import opened Entities
  import opened Cost
  import opened Builder
  import opened Networks
  import opened Search

  /** The `{client id, node id, length, capacity}` rows `main` passes to `ConnectClientsManually`. */
  function MainClientRows(): seq<ClientLink> {
    [ClientLink(1, 1, 5, 5), ClientLink(2, 1, 4, 3), ClientLink(3, 2, 2, 6), ClientLink(4, 3, 8, 6),
     ClientLink(5, 3, 5, 6), ClientLink(6, 3, 7, 7), ClientLink(7, 3, 2, 2)]
  }

  /** The `{node id, node id, length, capacity}` rows `main` passes to `ConnectNodesManually`. */
  function MainNodeRows(): seq<NodeLink> {
    [NodeLink(1, 2, 5, 5), NodeLink(2, 3, 5, 5)]
  }

  /** The network right after `GiveNetworkIndex`: clients 1..7, nodes 1..3 with `max_wires` 16, nothing wired. */
  function Indexed(): Topology {
    Topology([Client(1, None), Client(2, None), Client(3, None), Client(4, None),
              Client(5, None), Client(6, None), Client(7, None)],
             [Node(1, 16, [], []), Node(2, 16, [], []), Node(3, 16, [], [])])
  }

  /** The nodes `main` ends up with: wires in creation order, related clients by position. */
  function MainNodes(): seq<Node> {
    [Node(1, 16, [Wire(5, 5, 0, ClientEnd(0)), Wire(4, 3, 0, ClientEnd(1)), Wire(5, 5, 0, NodeEnd(1))], [0, 1]),
     Node(2, 16, [Wire(2, 6, 1, ClientEnd(2)), Wire(5, 5, 1, NodeEnd(0)), Wire(5, 5, 1, NodeEnd(2))], [2]),
     Node(3, 16, [Wire(8, 6, 2, ClientEnd(3)), Wire(5, 6, 2, ClientEnd(4)), Wire(7, 7, 2, ClientEnd(5)),
                  Wire(2, 2, 2, ClientEnd(6)), Wire(5, 5, 2, NodeEnd(1))], [3, 4, 5, 6])]
  }

  /** Every identifier in `main`'s rows names one of its clients or nodes. */
  lemma MainRowsResolve()
    ensures ClientLinksResolve([1, 2, 3, 4, 5, 6, 7], [1, 2, 3], MainClientRows())
    ensures NodeLinksResolve([1, 2, 3], MainNodeRows())
  {
  }
  /** The client batch gives node 1 the wires of clients 1 and 2. */
  lemma MainClientWiresFirst()
    ensures ClientLinksResolve([1, 2, 3, 4, 5, 6, 7], [1, 2, 3], MainClientRows())
            && ClientRowsWires([], [1, 2, 3, 4, 5, 6, 7], [1, 2, 3], MainClientRows(), 7, 0)
               == [Wire(5, 5, 0, ClientEnd(0)), Wire(4, 3, 0, ClientEnd(1))]
  {
    MainRowsResolve();
  }

  /** The client batch gives node 2 the wire of client 3. */
  lemma MainClientWiresSecond()
    ensures ClientLinksResolve([1, 2, 3, 4, 5, 6, 7], [1, 2, 3], MainClientRows())
            && ClientRowsWires([], [1, 2, 3, 4, 5, 6, 7], [1, 2, 3], MainClientRows(), 7, 1)
               == [Wire(2, 6, 1, ClientEnd(2))]
  {
    MainRowsResolve();
  }

  /** The client batch gives node 3 the wires of clients 4 to 7, in row order. */
  lemma MainClientWiresThird()
    ensures ClientLinksResolve([1, 2, 3, 4, 5, 6, 7], [1, 2, 3], MainClientRows())
            && ClientRowsWires([], [1, 2, 3, 4, 5, 6, 7], [1, 2, 3], MainClientRows(), 7, 2)
               == [Wire(8, 6, 2, ClientEnd(3)), Wire(5, 6, 2, ClientEnd(4)), Wire(7, 7, 2, ClientEnd(5)), Wire(2, 2, 2, ClientEnd(6))]
  {
    MainRowsResolve();
  }

  /** The node batch chains node 1 to node 2 and node 2 to node 3; node 2 gets its two wires in row order. */
  lemma MainNodeWires()
    ensures NodeLinksResolve([1, 2, 3], MainNodeRows())
    ensures NodeRowsWires([Wire(5, 5, 0, ClientEnd(0)), Wire(4, 3, 0, ClientEnd(1))], [1, 2, 3], MainNodeRows(), 2, 0)
         == MainNodes()[0].wires
    ensures NodeRowsWires([Wire(2, 6, 1, ClientEnd(2))], [1, 2, 3], MainNodeRows(), 2, 1)
         == MainNodes()[1].wires
    ensures NodeRowsWires([Wire(8, 6, 2, ClientEnd(3)), Wire(5, 6, 2, ClientEnd(4)), Wire(7, 7, 2, ClientEnd(5)),
                           Wire(2, 2, 2, ClientEnd(6))], [1, 2, 3], MainNodeRows(), 2, 2)
         == MainNodes()[2].wires
  {
  }

  /** The refresh lists, per node, the clients of its client-wires in wire order. */
  lemma MainRelated()
    ensures WireClients([Wire(5, 5, 0, ClientEnd(0)), Wire(4, 3, 0, ClientEnd(1)), Wire(5, 5, 0, NodeEnd(1))]) == [0, 1]
    ensures WireClients([Wire(2, 6, 1, ClientEnd(2)), Wire(5, 5, 1, NodeEnd(0)), Wire(5, 5, 1, NodeEnd(2))]) == [2]
    ensures WireClients([Wire(8, 6, 2, ClientEnd(3)), Wire(5, 6, 2, ClientEnd(4)), Wire(7, 7, 2, ClientEnd(5)),
                         Wire(2, 2, 2, ClientEnd(6)), Wire(5, 5, 2, NodeEnd(1))]) == [3, 4, 5, 6]
  {
  }

  /** The nodes after the client batch, before the node batch. */
  function ClientsWired(): seq<Node> {
    [Node(1, 16, [Wire(5, 5, 0, ClientEnd(0)), Wire(4, 3, 0, ClientEnd(1))], []),
     Node(2, 16, [Wire(2, 6, 1, ClientEnd(2))], []),
     Node(3, 16, [Wire(8, 6, 2, ClientEnd(3)), Wire(5, 6, 2, ClientEnd(4)), Wire(7, 7, 2, ClientEnd(5)), Wire(2, 2, 2, ClientEnd(6))], [])]
  }

  /** `ConnectClientsManually` on the indexed network leaves `ClientsWired()`. */
  lemma MainAfterClients(t0: Topology, clientIds: seq<nat>, nodeIds: seq<nat>)
    requires t0 == Indexed() && clientIds == [1, 2, 3, 4, 5, 6, 7] && nodeIds == [1, 2, 3]
    ensures ClientLinksResolve(clientIds, nodeIds, MainClientRows())
    ensures var t1 := ClientBatch(t0, clientIds, nodeIds, MainClientRows(), 7);
            |t1.nodes| == 3 && t1.nodes[0] == ClientsWired()[0] && t1.nodes[1] == ClientsWired()[1] && t1.nodes[2] == ClientsWired()[2]
  {
    MainRowsResolve();
    MainClientWiresFirst();
    MainClientWiresSecond();
    MainClientWiresThird();
    ClientBatchNodes(t0, clientIds, nodeIds, MainClientRows(), 7, 0);
    ClientBatchNodes(t0, clientIds, nodeIds, MainClientRows(), 7, 1);
    ClientBatchNodes(t0, clientIds, nodeIds, MainClientRows(), 7, 2);
  }

  /** `ConnectNodesManually`, refresh included, then leaves `MainNodes()`. */
  lemma MainAfterNodes(t1: Topology, nodeIds: seq<nat>)
    requires nodeIds == [1, 2, 3] && |t1.nodes| == 3
    requires t1.nodes[0] == ClientsWired()[0] && t1.nodes[1] == ClientsWired()[1] && t1.nodes[2] == ClientsWired()[2]
    ensures NodeLinksResolve(nodeIds, MainNodeRows())
    ensures var t2 := RefreshAll(NodeBatch(t1, nodeIds, MainNodeRows(), 2));
            |t2.nodes| == 3 && t2.nodes[0] == MainNodes()[0] && t2.nodes[1] == MainNodes()[1] && t2.nodes[2] == MainNodes()[2]
  {
    MainRowsResolve();
    MainNodeWires();
    MainRelated();
    NodeBatchNodes(t1, nodeIds, MainNodeRows(), 2, 0);
    NodeBatchNodes(t1, nodeIds, MainNodeRows(), 2, 1);
    NodeBatchNodes(t1, nodeIds, MainNodeRows(), 2, 2);
  }

  /** Three nodes equal to those of `MainNodes()` position by position are `MainNodes()`. */
  lemma MainNodesExact(nodes: seq<Node>)
    requires |nodes| == 3 && nodes[0] == MainNodes()[0] && nodes[1] == MainNodes()[1] && nodes[2] == MainNodes()[2]
    ensures nodes == MainNodes()
  {
  }

  /** The costs `main` prints: 78, 78 and 172 per node, 328 for the network. */
  lemma MainCosts()
    ensures NodeCost(MainNodes()[0]) == 78 && NodeCost(MainNodes()[1]) == 78 && NodeCost(MainNodes()[2]) == 172
    ensures NetworkCost(MainNodes()) == 328
  {
  }

  /** Client 4 is named by the fourth row only, so after the client batch it hangs on node 3 (position 2). */
  lemma MainFourthClient(t0: Topology, clientIds: seq<nat>, nodeIds: seq<nat>)
    requires t0 == Indexed() && clientIds == [1, 2, 3, 4, 5, 6, 7] && nodeIds == [1, 2, 3]
    ensures ClientLinksResolve(clientIds, nodeIds, MainClientRows())
    ensures var c := ClientBatch(t0, clientIds, nodeIds, MainClientRows(), 7).clients[3];
            c.wire.Some? && c.wire.value.node == 2
  {
    MainRowsResolve();
    assert FirstIndex(clientIds, 4) == Some(3) && FirstIndex(nodeIds, 3) == Some(2);
    assert forall j :: 3 < j < 7 ==> FirstIndex(clientIds, MainClientRows()[j].client) != Some(3);
    ClientBatchClientNode(t0, clientIds, nodeIds, MainClientRows(), 7, 3);
  }

  /** The identifiers of the related clients of nodes 1 and 3, once clients are numbered 1 to 7. */
  lemma MainRelatedIds(clients: seq<Client>)
    requires ClientIds(clients) == [1, 2, 3, 4, 5, 6, 7]
    ensures RelatedInRange(clients, MainNodes()[0]) && RelatedIds(clients, MainNodes()[0]) == [1, 2]
    ensures RelatedInRange(clients, MainNodes()[2]) && RelatedIds(clients, MainNodes()[2]) == [4, 5, 6, 7]
  {
  }

  /** The scans of the two searches: node 3's identifiers meet 5 second; node 1's run out. */
  lemma MainScans()
    ensures Scan([4, 5, 6, 7], 5, 0, []) == Hit(1, [4])
    ensures Scan([1, 2], 5, 0, []) == Exhausted([1, 2])
  {
  }

  /**
   * Numbering, both batches and the refresh leave `MainNodes()`, with client 4
   * (position 3) hanging on node 3 (position 2).
   */
  lemma MainBuilt(t0: Topology, clientIds: seq<nat>, nodeIds: seq<nat>)
    requires t0 == Indexed() && clientIds == [1, 2, 3, 4, 5, 6, 7] && nodeIds == [1, 2, 3]
    ensures ClientLinksResolve(clientIds, nodeIds, MainClientRows()) && NodeLinksResolve(nodeIds, MainNodeRows())
    ensures var t2 := RefreshAll(NodeBatch(ClientBatch(t0, clientIds, nodeIds, MainClientRows(), 7), nodeIds, MainNodeRows(), 2));
            t2.nodes == MainNodes() && t2.clients[3].wire.Some? && t2.clients[3].wire.value.node == 2
  {
    MainAfterClients(t0, clientIds, nodeIds);
    var t1 := ClientBatch(t0, clientIds, nodeIds, MainClientRows(), 7);
    MainAfterNodes(t1, nodeIds);
    MainNodesExact(RefreshAll(NodeBatch(t1, nodeIds, MainNodeRows(), 2)).nodes);
    MainFourthClient(t0, clientIds, nodeIds);
  }

  /**
   * On `main`'s final nodes the node costs are 78, 78 and 172 and the network
   * cost 328; a search for client 5 from node 3 finds position 4, and from
   * node 1 finds nothing, since the search never leaves its starting node.
   */
  lemma MainOutcome(clients: seq<Client>, nodes: seq<Node>)
    requires ClientIds(clients) == [1, 2, 3, 4, 5, 6, 7] && nodes == MainNodes()
    ensures NodeCost(nodes[0]) == 78 && NodeCost(nodes[1]) == 78 && NodeCost(nodes[2]) == 172 && NetworkCost(nodes) == 328
    ensures RelatedInRange(clients, nodes[2]) && Terminates(Query(4, 5), nodes[2])
            && SearchResult(Query(4, 5), clients, nodes[2], true, []).0 == Some(4)
    ensures RelatedInRange(clients, nodes[0]) && Terminates(Query(1, 5), nodes[0])
            && SearchResult(Query(1, 5), clients, nodes[0], true, []).0 == None
  {
    MainCosts();
    MainRelatedIds(clients);
    MainScans();
  }

  /**
   * Build the network of `main` and compute its node costs and its network
   * cost; then search, as the code after `main`'s first `return` would, for
   * client 5 from the node that client 4's wire belongs to.
   */
  method MainScenario() returns (nodeCosts: seq<nat>, total: nat, found: Option<nat>)
    ensures nodeCosts == [78, 78, 172] && total == 328
    ensures found == Some(4)
  {
    var n := new Network(7, 3);
    n.GiveNetworkIndex();
    ghost var t0 := n.Model();
    ghost var clientIds := ClientIds(n.clients);
    ghost var nodeIds := NodeIds(n.nodes);
    assert t0 == Indexed();
    assert clientIds == [1, 2, 3, 4, 5, 6, 7];
    assert nodeIds == [1, 2, 3];
    MainBuilt(t0, clientIds, nodeIds);
    n.ConnectClientsManually(MainClientRows());
    n.ConnectNodesManually(MainNodeRows());
    MainOutcome(n.clients, n.nodes);

    var c0 := CalculateCost(n.nodes[0]);
    var c1 := CalculateCost(n.nodes[1]);
    var c2 := CalculateCost(n.nodes[2]);
    nodeCosts := [c0, c1, c2];
    total := n.CalculateNetworkCost();

    var seen;
    found, seen := SearchClient(Query(4, 5), n.clients, n.nodes[n.clients[3].wire.value.node], true, []);
  }
}
