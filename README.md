# Router network model

A Dafny model of the network builder and search in `main.cpp` of the Router
program. A network holds clients and nodes. Every client and node gets an
identifier (clients 1..N and nodes 1..M, numbered independently), and every
node gets a `max_wires` value. Connection batches then find endpoints by
identifier and wire them: a client-wire joins a node to a client, and a
node-wire pair joins two nodes in both directions. A refresh appends each
node's wire clients to its related-client list. Costs are the sum of
length × capacity over a node's wires plus its `max_wires`, and the network
cost is the sum of its node costs. A search looks for a target client
identifier among a node's related clients.

Raw pointers become positions:
- A wire records the position of the node that owns it, and its far end is a
  client position or a node position.
- A client records its wire as (node position, wire index).

The `Network` class (`network.dfy`) keeps `clients` and `nodes` as sequence
fields, which its methods change in place; the original functions reach the
same data through `Network*`, `Node*` and `Client*` arguments. The connection
and refresh methods state their new state through the value-level functions
of `Builder` (`builder.dfy`); the numbering methods state it element by
element; `CalculateNetworkCost` changes nothing and returns the network cost.
The properties are proved about the `Builder` functions: the topology stays
well formed, a batch only appends, the cost grows by exactly the wires added,
and a refresh lists the attached clients. `Search` (`search.dfy`) models
`SearchClient`. `Scenario` (`scenario.dfy`) replays what `main` builds and the
costs it prints.

Behaviours of the code that the model keeps as written:
- **Every wire counts in node cost.** `CalculateCost` sums length × capacity
  over all wires of a node, client-wires and node-wires alike
  (main.cpp:60-61). In `main`'s network the node costs are 78, 78 and 172,
  and the network cost is 328.
- **Refresh appends.** `GenerateRelatedNodes` appends to `related_clients`
  and never clears it (main.cpp:50-54), so a second refresh repeats the list
  (`RefreshTwiceDuplicates`).
- **A client wired twice keeps its first wire.** `CreateClientWire` only
  re-points `client->wire` (main.cpp:70); the earlier wire still carries the
  client, so a later refresh lists the client at both nodes, while the
  client's own wire is the one its last row created (`RewiredClientListedTwice`,
  `ClientBatchClientNode`).
- **The search never leaves its starting node.** For every node-wire,
  `SearchClient` recurses on the same `node` (main.cpp:118). The re-entry
  meets an identifier already recorded and returns nothing
  (`ReentryFindsNothing`). A node with node-wires and no related clients
  recurses forever. So the search from node 1 for client 5 finds nothing,
  although node-wires link node 1 to client 5's node.
- **A recorded identifier stops only the current call.** It makes the current
  call return null (main.cpp:107-109); the caller's loop over wires goes on
  (main.cpp:114-122).

## Model

| member | source | states |
|---|---|---|
| Entities.FirstIndex | main.cpp:161-168 | `std::find_if` by identifier: the result is the first position carrying the identifier; it is None exactly when no element carries it |
| Entities.DenseLookup | main.cpp:151-155 | after numbering, identifier k is found at position k - 1, and every identifier outside 1..N is found nowhere |
| Cost.CalculateCost | main.cpp:57-64 | the loop's result is the node's wire cost (sum of length × capacity over all its wires, node-wires included) plus its `max_wires` |
| Cost.WireSumAppend | main.cpp:60-61 | wire cost is additive over concatenated wire lists, which is what makes the accumulation loop correct |
| Cost.NetworkCostAppend | main.cpp:221-227 | network cost is additive over concatenated node lists |
| Cost.NetworkCostUpdate | main.cpp:221-227 | replacing one node changes the network cost by exactly that node's change in cost |
| Cost.NetworkCostPointwise | main.cpp:221-227 | node lists whose node costs agree position by position have equal network cost |
| Builder.AttachClientHolds | main.cpp:66-71 | after `CreateClientWire`, the client points at the node's new last wire, that wire carries the client, the node's old wires are a prefix, identifiers are unchanged, and every other client and node is untouched |
| Builder.AttachClientAt | main.cpp:66-71 | per node: the target node gains exactly one wire at its end; every other node is unchanged |
| Builder.AttachClientWellFormed | main.cpp:66-71 | attaching a client keeps every wire owned by its node with an existing far end, and every wired client held by its wire |
| Builder.AttachNodesAt | main.cpp:73-77 | `CreateNodeWire` appends a wire towards `to_node` at `node`, then a wire back at `to_node` (two wires for a self-loop); clients are untouched |
| Builder.AttachNodesWellFormed | main.cpp:73-77 | wiring two nodes keeps the topology well formed |
| Builder.RefreshAll | main.cpp:217-218 | refreshing every node keeps the clients and refreshes each node in place |
| Builder.WireClientsMembers | main.cpp:48-55 | a client is in a node's wire clients exactly when one of its wires carries that client |
| Builder.WireClientsAppend | main.cpp:48-55 | the collected wire clients of concatenated wire lists concatenate |
| Builder.RefreshTwiceDuplicates | main.cpp:48-55 | because the list is appended to and not cleared, a second refresh repeats the wire clients |
| Builder.RefreshListsAttachedClients | main.cpp:48-55 | after a refresh, every wired client is listed among the related clients of the node its wire belongs to |
| Builder.RewiredClientListedTwice | main.cpp:48-71 | a client wired to node p and then to node q points at q, yet the wire at p still carries it, so a refresh lists it at both nodes |
| Builder.RefreshNodeWellFormed | main.cpp:48-55 | refreshing one node keeps the topology well formed; every related client exists |
| Builder.ClientBatchStep | main.cpp:195-202 | one more client row attaches that row's client to that row's node, both found by identifier, and both identifiers resolve |
| Builder.ClientRowsStep | main.cpp:163-170 | the same step for (client id, node id) pairs with the default length and capacity |
| Builder.NodeBatchStep | main.cpp:209-216 | one more node row wires that row's two nodes together, both found by identifier |
| Builder.NodeRowsStep | main.cpp:180-187 | the same step for (node id, node id) pairs with the default length and capacity |
| Builder.ClientBatchWellFormed | main.cpp:190-203 | a whole client batch keeps the topology well formed |
| Builder.NodeBatchWellFormed | main.cpp:205-216 | a whole node batch keeps the topology well formed |
| Builder.ClientBatchWiresClients | main.cpp:195-202 | every client named by a processed row is wired afterwards |
| Builder.ClientBatchClientNode | main.cpp:195-202 | a client named by row k and by no later row hangs on the node row k names (a later row re-points the client) |
| Builder.ClientBatchNodes | main.cpp:195-202 | a client batch only appends wires to each node: the wires of the rows that resolve to that node, in row order |
| Builder.NodeBatchNodes | main.cpp:209-216 | a node batch only appends wires to each node: one per end of each row at that node, in row order |
| Builder.AttachClientCost | main.cpp:57-71 | a client-wire adds exactly its length × capacity to the network cost |
| Builder.AttachNodesCost | main.cpp:57-77 | a node-wire pair adds twice its length × capacity to the network cost, self-loops included |
| Builder.ClientBatchCost | main.cpp:190-203 | a client batch adds the sum of length × capacity over its rows to the network cost |
| Builder.NodeBatchCost | main.cpp:205-216 | a node batch adds twice the sum of length × capacity over its rows to the network cost |
| Builder.RefreshAllCost | main.cpp:217-218 | refreshing related clients leaves the network cost unchanged |
| Networks.Network.constructor | main.cpp:141-149 | a network holding the given numbers of default clients (identifier 0, no wire) and default nodes (identifier 0, `max_wires` 0, no wires); it is well formed |
| Networks.Network.CreateClientWire | main.cpp:66-71 | the new state is the client attached to the node, the topology stays well formed, and identifiers are unchanged |
| Networks.Network.CreateNodeWire | main.cpp:73-77 | the new state is the two nodes wired both ways; clients are untouched and the topology stays well formed |
| Networks.Network.GenerateRelatedNodes | main.cpp:48-55 | only node p changes: its client-wire clients are appended, in wire order, to its related list |
| Networks.Network.GenerateAllRelated | main.cpp:217-218 | every node is refreshed, clients are untouched, and the topology stays well formed |
| Networks.Network.GiveClientIndex | main.cpp:126-130 | client i gets identifier i + 1 for i below the count; nothing else changes |
| Networks.Network.GiveNodeIndex | main.cpp:132-139 | node i gets identifier i + 1 and the default `max_wires` for i below the count; nothing else changes |
| Networks.Network.GiveNetworkIndex | main.cpp:151-155 | clients and nodes are numbered 1..N and 1..M independently (dense identifiers), nodes get `max_wires`, and nothing else changes |
| Networks.Network.ConnectClientRow | main.cpp:197-201 | finds the client and node by identifier (first match) and attaches them; identifiers are unchanged |
| Networks.Network.ConnectNodeRow | main.cpp:211-215 | finds both nodes by identifier (first match) and wires them together; clients are untouched |
| Networks.Network.ConnectClientsManually | main.cpp:190-203 | the new state is the client batch over all rows, with no refresh; the topology stays well formed |
| Networks.Network.ConnectNodesManually | main.cpp:205-219 | the new state is the node batch over all rows followed by a refresh of every node |
| Networks.Network.ConnectClients | main.cpp:157-173 | the new state is the client batch of the pairs with the default length and capacity, followed by a refresh of every node |
| Networks.Network.ConnectNodes | main.cpp:175-188 | the new state is the node batch of the pairs with the default length and capacity, with no refresh |
| Networks.Network.CalculateNetworkCost | main.cpp:221-227 | the result is the sum of the node costs over all nodes |
| Search.RelatedIds | main.cpp:105-113 | the identifiers the scan reads: one per related client, in list order |
| Search.Scan | main.cpp:105-113 | a hit lies at a position holding the target; an exhausted scan has recorded every remaining identifier after the ones it started with |
| Search.ScanRelated | main.cpp:105-113 | the scanning loop returns exactly the outcome of `Scan` from the start with the given visited list |
| Search.Recorded | main.cpp:107-109 | the inner loop reports true exactly when the identifier is in the visited list |
| Search.SearchClient | main.cpp:98-124 | unset identifiers give null and leave the visited list unchanged; a found client is a related client of the node and carries the target identifier; the result is the model `SearchResult` |
| Search.FreshHitUnique | main.cpp:105-113 | at most one position holds the target with no repeated identifier up to it |
| Search.ScanFromStart | main.cpp:103-113 | a scan from a cleared visited list hits only a fresh target, stops only at a repeated identifier met before the target, and runs out only when the target is absent |
| Search.RepeatBlocksFreshHit | main.cpp:107-109 | a repeated identifier met before the target rules out every fresh hit |
| Search.StartingSearchFindsFreshMatch | main.cpp:98-113 | a starting search with both identifiers set finds a client exactly when a fresh hit exists, and then it finds that client |
| Search.ReentryFindsNothing | main.cpp:114-122 | the same-node re-entry for a node-wire, with the first related identifier already recorded, finds nothing and records nothing |
| Scenario.MainRowsResolve | main.cpp:318-319 | every identifier in `main`'s client and node rows names an existing client or node |
| Scenario.MainClientWiresFirst | main.cpp:318 | the client rows give node 1 the wires of clients 1 and 2 |
| Scenario.MainClientWiresSecond | main.cpp:318 | the client rows give node 2 the wire of client 3 |
| Scenario.MainClientWiresThird | main.cpp:318 | the client rows give node 3 the wires of clients 4 to 7, in row order |
| Scenario.MainNodeWires | main.cpp:319 | the node rows chain node 1 to node 2 and node 2 to node 3, in row order |
| Scenario.MainRelated | main.cpp:217-218 | the refresh lists clients 1-2, 3 and 4-7 as related to nodes 1, 2 and 3 |
| Scenario.MainAfterClients | main.cpp:318 | the numbered network after `ConnectClientsManually` has the client-wired nodes |
| Scenario.MainAfterNodes | main.cpp:319 | after `ConnectNodesManually` and its refresh, the nodes are the final nodes of `main` |
| Scenario.MainCosts | main.cpp:320-323 | the printed costs: 78, 78 and 172 per node, 328 for the network |
| Scenario.MainFourthClient | main.cpp:318 | client 4 is wired to node 3 |
| Scenario.MainRelatedIds | main.cpp:325-331 | the identifiers related to nodes 1 and 3 are 1, 2 and 4, 5, 6, 7 |
| Scenario.MainScans | main.cpp:325-331 | scanning 4, 5, 6, 7 for 5 hits the second entry; scanning 1, 2 runs out |
| Scenario.MainBuilt | main.cpp:312-319 | numbering, both batches and the refresh give the final nodes, with client 4 hanging on node 3 |
| Scenario.MainOutcome | main.cpp:320-331 | on the final network the costs are 78, 78, 172 and 328; the search for client 5 from client 4's node finds client position 4; the same search from node 1 finds nothing |
| Scenario.MainScenario | main.cpp:310-336 | building `main`'s network gives node costs [78, 78, 172] and network cost 328; the search after the first `return` finds client position 4 (identifier 5) |

## Left out

- `OutputNodeProperties` and `OutputNetworkProperties` are left out: they only print to the console.
- `SaveNetworkSettings` is left out: its body is empty except for comments.
- `Client::resource` and `Query::message` are left out: no modelled operation reads them.
- `PushClientsToNetwork` and `PushNodesToNetwork` are folded into the `Network` constructor. `main` uses them only to copy default collections into an empty network.
- A client's uninitialised `wire` pointer is modelled as `None`.
- Cost.CalculateCost: does not model 32-bit arithmetic. The source multiplies `unsigned int` values and accumulates them in an `int`, so it wraps or overflows for large lengths and capacities. The model uses unbounded naturals.
- Networks.Network.CalculateNetworkCost: does not model the 32-bit `int` accumulation, for the same reason.
- Networks.Network.GiveNetworkIndex: does not model identifiers wrapping at 2^32 for more than 2^32 - 1 clients or nodes.
- Networks.Network.ConnectClientsManually: requires every row's identifiers to name an existing client and node. The source dereferences the end iterator of `std::find_if` when they don't (undefined behaviour). The same holds for `ConnectNodesManually`, `ConnectClients` and `ConnectNodes`.
- Networks.Network.ConnectClients: the static `buf_index` that the source's lambdas compare against becomes a plain identifier argument. The same holds for the other three batches.
- Search.SearchClient: requires the call to terminate. With both identifiers set, a node that has a node-wire and no related clients makes the source recurse on itself without end. That case is excluded, not modelled.
- Search.SearchClient: the function-local `static` visited list becomes an argument and a second result, so the search state is threaded explicitly.
- Pointer invalidation is not captured. In the source, `client->wire` points into a node's `std::vector`, and later `push_back`s may reallocate it, leaving the pointer dangling (as in `main` at line 331). The model's (node position, wire index) references stay valid.
- Scenario.MainScenario: `main` returns at line 324, before the search. The model performs the search anyway, to state what that code computes.
