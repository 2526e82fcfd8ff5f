/**
 * The entities of the router topology: clients, nodes, the wires a node owns,
 * and search queries. Raw pointers of the original program are replaced by
 * positions: a wire names its owner node and its far end by position in the
 * network's node and client collections, and a client names its wire by
 * (node position, wire index).
 */
module Entities {

  datatype Option<T> = None | Some(value: T)

  /** The far end of a wire: a client (client-wire) or a second node (node-wire), never both. */
  datatype End = ClientEnd(client: nat) | NodeEnd(toNode: nat)

  /** A wire owned by node position `owner`. */
  datatype Wire = Wire(length: nat, capacity: nat, owner: nat, end: End)

  /** Where a wire lives: the position of its node and its index in that node's wires. */
  datatype WireRef = WireRef(node: nat, wire: nat)

  /** A client; `wire` is None until the client is connected. */
  datatype Client = Client(index: nat, wire: Option<WireRef>)

  /** A node; `relatedClients` holds client positions. */
  datatype Node = Node(index: nat, maxWires: nat, wires: seq<Wire>, relatedClients: seq<nat>)

  /** A search request: source and target client identifiers (0 means unset). */
  datatype Query = Query(indexFrom: nat, indexTo: nat)

  /** The value held by a network: its client and node collections. */
  datatype Topology = Topology(clients: seq<Client>, nodes: seq<Node>)

  /** A freshly constructed client: identifier 0, not wired. */
  const UnsetClient := Client(0, None)

  /** A freshly constructed node: identifier 0, `max_wires` 0, no wires, no related clients. */
  const EmptyNode := Node(0, 0, [], [])

  /** The `max_wires` that identifier assignment gives every node unless told otherwise. */
  const DefaultMaxWires: nat := 16

  function ClientIds(cs: seq<Client>): (ids: seq<nat>)
    ensures |ids| == |cs|
    ensures forall i :: 0 <= i < |cs| ==> ids[i] == cs[i].index
  {
    seq(|cs|, i requires 0 <= i < |cs| => cs[i].index)
  }

  function NodeIds(ns: seq<Node>): (ids: seq<nat>)
    ensures |ids| == |ns|
    ensures forall i :: 0 <= i < |ns| ==> ids[i] == ns[i].index
  {
    seq(|ns|, i requires 0 <= i < |ns| => ns[i].index)
  }

  /**
   * The position of the first element whose identifier is `id`, as `std::find_if`
   * over a collection finds it; None when no element carries `id`.
   */
  function FirstIndex(ids: seq<nat>, id: nat): (r: Option<nat>)
    ensures r.Some? ==> r.value < |ids| && ids[r.value] == id && forall j :: 0 <= j < r.value ==> ids[j] != id
    ensures r.None? <==> id !in ids
  {
    FirstIndexFrom(ids, id, 0)
  }

  /** The search of `FirstIndex`, from position i onwards. */
  function FirstIndexFrom(ids: seq<nat>, id: nat, i: nat): (r: Option<nat>)
    requires i <= |ids|
    ensures r.Some? ==> i <= r.value < |ids| && ids[r.value] == id && forall j :: i <= j < r.value ==> ids[j] != id
    ensures r.None? ==> forall j :: i <= j < |ids| ==> ids[j] != id
    decreases |ids| - i
  {
    if i == |ids| then None
    else if ids[i] == id then Some(i)
    else FirstIndexFrom(ids, id, i + 1)
  }

  /** Identifiers are 1..N in collection order. */
  predicate DenseIds(ids: seq<nat>) {
    forall i :: 0 <= i < |ids| ==> ids[i] == i + 1
  }

  /** With dense identifiers, identifier k is found at position k - 1, and nothing else is found. */
  lemma DenseLookup(ids: seq<nat>, id: nat)
    requires DenseIds(ids)
    ensures FirstIndex(ids, id) == if 1 <= id <= |ids| then Some(id - 1) else None
  {
    if 1 <= id <= |ids| {
      assert ids[id - 1] == id;
    } else {
      assert forall i :: 0 <= i < |ids| ==> ids[i] != id;
    }
  }

  predicate EndInRange(e: End, clientCount: nat, nodeCount: nat) {
    match e
    case ClientEnd(c) => c < clientCount
    case NodeEnd(n) => n < nodeCount
  }

  /** Client `c` is held by the wire that `r` designates. */
  predicate AttachedAt(t: Topology, c: nat, r: WireRef) {
    r.node < |t.nodes| && r.wire < |t.nodes[r.node].wires|
    && t.nodes[r.node].wires[r.wire].end == ClientEnd(c)
  }

  /**
   * The consistency every construction step keeps: each wire is owned by the
   * node that holds it and its far end exists; related clients exist; and a
   * wired client's wire exists and points back at that client.
   */
  predicate WellFormed(t: Topology) {
    (forall p, i :: 0 <= p < |t.nodes| && 0 <= i < |t.nodes[p].wires| ==>
       t.nodes[p].wires[i].owner == p && EndInRange(t.nodes[p].wires[i].end, |t.clients|, |t.nodes|))
    && (forall p, k :: 0 <= p < |t.nodes| && 0 <= k < |t.nodes[p].relatedClients| ==>
          t.nodes[p].relatedClients[k] < |t.clients|)
    && (forall c :: 0 <= c < |t.clients| && t.clients[c].wire.Some? ==> AttachedAt(t, c, t.clients[c].wire.value))
  }
}
