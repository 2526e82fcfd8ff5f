/**
 * `SearchClient` as the original program has it. The visited list of client
 * identifiers, a function-local static there, is threaded through the calls
 * here: it comes in as `visited` and goes out as `seen`. The recursion for a
 * node-wire re-enters the SAME node rather than the node at the wire's far
 * end, so the search only ever looks at the starting node's related clients:
 * a re-entry meets an identifier the first pass recorded and yields nothing,
 * and with no related clients at all the re-entry repeats forever.
 */
module Search {
  import opened Entities

  /** Every related client of `node` exists in `clients`. */
  predicate RelatedInRange(clients: seq<Client>, node: Node) {
    forall k :: 0 <= k < |node.relatedClients| ==> node.relatedClients[k] < |clients|
  }

  /** The identifiers of the related clients of `node`, in list order. */
  function RelatedIds(clients: seq<Client>, node: Node): (ids: seq<nat>)
    requires RelatedInRange(clients, node)
    ensures |ids| == |node.relatedClients|
    ensures forall k :: 0 <= k < |ids| ==> ids[k] == clients[node.relatedClients[k]].index
  {
    seq(|node.relatedClients|, k requires 0 <= k < |node.relatedClients| => clients[node.relatedClients[k]].index)
  }

  predicate HasNodeWire(node: Node) {
    exists i :: 0 <= i < |node.wires| && node.wires[i].end.NodeEnd?
  }

  /**
   * The calls that return: an unset source or target, or a node with related
   * clients, or a node without node-wires. The remaining calls never return.
   */
  predicate Terminates(q: Query, node: Node) {
    q.indexFrom == 0 || q.indexTo == 0 || |node.relatedClients| > 0 || !HasNodeWire(node)
  }

  predicate Distinct(s: seq<nat>) {
    forall a, b :: 0 <= a < b < |s| ==> s[a] != s[b]
  }

  /** How the scan of the related clients ends, with the visited list at that point. */
  datatype ScanOutcome = Hit(at: nat, seen: seq<nat>) | Poisoned(seen: seq<nat>) | Exhausted(seen: seq<nat>)

  /**
   * The scan of the related-client identifiers from position i: an identifier
   * already recorded stops everything; the target identifier is a hit;
   * otherwise the identifier is recorded and the scan moves on.
   */
  function Scan(ids: seq<nat>, target: nat, i: nat, seen: seq<nat>): (r: ScanOutcome)
    requires i <= |ids|
    ensures r.Hit? ==> i <= r.at < |ids| && ids[r.at] == target
    ensures r.Exhausted? ==> r.seen == seen + ids[i..]
    decreases |ids| - i
  {
    if i == |ids| then
      assert ids[i..] == [];
      Exhausted(seen)
    else if ids[i] in seen then Poisoned(seen)
    else if ids[i] == target then Hit(i, seen)
    else
      var r := Scan(ids, target, i + 1, seen + [ids[i]]);
      assert ids[i..] == [ids[i]] + ids[i + 1..];
      r
  }

  /**
   * What a call returns: the client position found (if any) and the visited
   * list it leaves behind. A starting call begins from an empty visited list.
   */
  function SearchResult(q: Query, clients: seq<Client>, node: Node, isStarting: bool, visited: seq<nat>): (Option<nat>, seq<nat>)
    requires RelatedInRange(clients, node)
  {
    if q.indexFrom == 0 || q.indexTo == 0 then (None, visited)
    else
      match Scan(RelatedIds(clients, node), q.indexTo, 0, if isStarting then [] else visited)
      case Hit(k, s) => (Some(node.relatedClients[k]), s)
      case Poisoned(s) => (None, s)
      case Exhausted(s) => (None, s)
  }

  /**
   * The first loop of `SearchClient`: walk the related clients, stopping at a
   * recorded identifier or at the target, recording every other identifier.
   */
  method ScanRelated(clients: seq<Client>, node: Node, target: nat, visited: seq<nat>) returns (r: ScanOutcome)
    requires RelatedInRange(clients, node)
    ensures r == Scan(RelatedIds(clients, node), target, 0, visited)
  {
    ghost var ids := RelatedIds(clients, node);
    var seen := visited;
    var i := 0;
    while i < |node.relatedClients|
      invariant 0 <= i <= |ids|
      invariant Scan(ids, target, 0, visited) == Scan(ids, target, i, seen)
    {
      var id := clients[node.relatedClients[i]].index;
      var recorded := Recorded(seen, id);
      if recorded {
        return Poisoned(seen);
      }
      if id == target {
        return Hit(i, seen);
      }
      seen := seen + [id];
      i := i + 1;
    }
    return Exhausted(seen);
  }

  /** `SearchClient(q, node, is_starting)`, with the static visited list made explicit. */
  method SearchClient(q: Query, clients: seq<Client>, node: Node, isStarting: bool, visited: seq<nat>)
    returns (found: Option<nat>, seen: seq<nat>)
    requires RelatedInRange(clients, node)
    requires Terminates(q, node)
    ensures (found, seen) == SearchResult(q, clients, node, isStarting, visited)
    ensures q.indexFrom == 0 || q.indexTo == 0 ==> found == None && seen == visited
    ensures found.Some? ==> found.value in node.relatedClients && clients[found.value].index == q.indexTo
    decreases if isStarting then 2
              else if |node.relatedClients| > 0 && clients[node.relatedClients[0]].index !in visited then 1
              else 0
  {
    if q.indexFrom == 0 || q.indexTo == 0 {
      return None, visited;
    }
    seen := visited;
    if isStarting {
      seen := [];
    }
    ghost var ids := RelatedIds(clients, node);
    ghost var start := seen;
    var outcome := ScanRelated(clients, node, q.indexTo, seen);
    match outcome
    case Hit(k, s) =>
      return Some(node.relatedClients[k]), s;
    case Poisoned(s) =>
      return None, s;
    case Exhausted(s) =>
      seen := s;
    var w := 0;
    while w < |node.wires|
      invariant 0 <= w <= |node.wires|
      invariant Scan(ids, q.indexTo, 0, start) == Exhausted(seen)
      invariant seen == start + ids
    {
      if node.wires[w].end.NodeEnd? {
        assert |ids| > 0;
        var cl;
        cl, seen := SearchClient(q, clients, node, false, seen);
        if cl.Some? {
          return cl, seen;
        }
      }
      w := w + 1;
    }
    return None, seen;
  }

  /** The inner scan of the visited list for one identifier. */
  method Recorded(seen: seq<nat>, id: nat) returns (b: bool)
    ensures b <==> id in seen
  {
    var j := 0;
    while j < |seen|
      invariant 0 <= j <= |seen|
      invariant id !in seen[..j]
    {
      if seen[j] == id {
        return true;
      }
      assert seen[..j + 1] == seen[..j] + [seen[j]];
      j := j + 1;
    }
    assert seen[..j] == seen;
    return false;
  }

  /* ---------- What a starting call finds ---------- */

  /** Position k holds the target, and no identifier repeats up to and including it. */
  predicate FreshHit(ids: seq<nat>, target: nat, k: int) {
    0 <= k < |ids| && ids[k] == target && Distinct(ids[..k + 1])
  }

  /** At most one position is a fresh hit. */
  lemma FreshHitUnique(ids: seq<nat>, target: nat, k: int, m: int)
    requires FreshHit(ids, target, k) && FreshHit(ids, target, m)
    ensures k == m
  {
  }

  /** The scan of a starting call, from position i with the first i identifiers recorded. */
  lemma {:induction false} ScanFromStart(ids: seq<nat>, target: nat, i: nat)
    requires i <= |ids| && Distinct(ids[..i]) && target !in ids[..i]
    ensures match Scan(ids, target, i, ids[..i])
            case Hit(k, s) => FreshHit(ids, target, k)
            case Poisoned(s) => exists j :: i <= j < |ids| && ids[j] in ids[..j] && target !in ids[..j]
            case Exhausted(s) => target !in ids
    decreases |ids| - i
  {
    if i == |ids| {
      assert ids[..i] == ids;
    } else if ids[i] in ids[..i] {
    } else if ids[i] == target {
      assert ids[..i + 1] == ids[..i] + [ids[i]];
    } else {
      assert ids[..i + 1] == ids[..i] + [ids[i]];
      ScanFromStart(ids, target, i + 1);
    }
  }

  /** A repeated identifier met before any target rules out every fresh hit. */
  lemma RepeatBlocksFreshHit(ids: seq<nat>, target: nat, j: nat, k: int)
    requires j < |ids| && ids[j] in ids[..j] && target !in ids[..j]
    ensures !FreshHit(ids, target, k)
  {
  }

  /**
   * A starting call with both identifiers set finds a client exactly when some
   * related client carries the target identifier with no identifier repeated
   * up to it, and then it finds the first such client. A repeated identifier
   * before the target makes it find nothing.
   */
  lemma StartingSearchFindsFreshMatch(q: Query, clients: seq<Client>, node: Node, visited: seq<nat>)
    requires q.indexFrom != 0 && q.indexTo != 0 && RelatedInRange(clients, node)
    ensures var ids := RelatedIds(clients, node);
            var found := SearchResult(q, clients, node, true, visited).0;
            (found.Some? <==> exists k :: FreshHit(ids, q.indexTo, k))
            && (forall k :: FreshHit(ids, q.indexTo, k) ==> found == Some(node.relatedClients[k]))
  {
    var ids := RelatedIds(clients, node);
    var t := q.indexTo;
    assert ids[..0] == [];
    ScanFromStart(ids, t, 0);
    match Scan(ids, t, 0, [])
    case Hit(k, s) =>
      forall m | FreshHit(ids, t, m) ensures m == k {
        FreshHitUnique(ids, t, k, m);
      }
    case Poisoned(s) =>
      var j :| 0 <= j < |ids| && ids[j] in ids[..j] && t !in ids[..j];
      forall k ensures !FreshHit(ids, t, k) {
        RepeatBlocksFreshHit(ids, t, j, k);
      }
    case Exhausted(s) =>
  }

  /**
   * The re-entry made for a node-wire, with the node's first related identifier
   * already recorded, returns nothing and leaves the visited list as it was.
   */
  lemma ReentryFindsNothing(q: Query, clients: seq<Client>, node: Node, visited: seq<nat>)
    requires RelatedInRange(clients, node) && |node.relatedClients| > 0
    requires clients[node.relatedClients[0]].index in visited
    ensures SearchResult(q, clients, node, false, visited) == (None, visited)
  {
  }
}
