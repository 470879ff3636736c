/** Circuit construction by `RouterImpl` (lib.rs): pick the first available
    entry node, two routing nodes and the first available exit node from the
    node registry, draw one key pair per hop, and give the circuit a
    one-hour lifetime.
 */
module Circuits {
  import opened Types
  import opened Seqs
  import opened Nodes
  import opened Entropy

  /** `Duration::from_secs(3600)`. */
  const CIRCUIT_LIFETIME: nat := 3600

  const NO_ENTRY_NODES: string := "No available entry nodes"
  const NO_ROUTING_NODES: string := "No available routing nodes"
  const NO_EXIT_NODES: string := "No available exit nodes"

  /** The bytes of `b"dummy response"`, what `receive_response` returns. */
  const DUMMY_RESPONSE: seq<Byte> :=
    [0x64, 0x75, 0x6d, 0x6d, 0x79, 0x20, 0x72, 0x65, 0x73, 0x70, 0x6f, 0x6e, 0x73, 0x65]

  /** The nodes a circuit runs through. */
  datatype Hops = Hops(entry: NodeId, routing: seq<NodeId>, exit: NodeId)

  /** Some registered node of `role` is Online. */
  predicate HasAvailable(nodes: seq<Node>, role: NodeRole)
  {
    exists i :: 0 <= i < |nodes| && nodes[i].role == role && nodes[i].status == Online
  }

  /** `nodes[i]` is an Online node of `role` and no earlier node is. */
  predicate IsFirstAvailable(nodes: seq<Node>, role: NodeRole, i: int)
  {
    && 0 <= i < |nodes|
    && nodes[i].role == role && nodes[i].status == Online
    && forall j :: 0 <= j < i ==> !(nodes[j].role == role && nodes[j].status == Online)
  }

  /** A role has an available node exactly when its availability query
      answers with a non-empty list. */
  lemma AvailableIffListed(nodes: seq<Node>, role: NodeRole)
    ensures HasAvailable(nodes, role) <==> |AvailableNodes(nodes, role)| > 0
  {
    if |AvailableNodes(nodes, role)| > 0 {
      var k :| 0 <= k < |nodes| && nodes[k] == AvailableNodes(nodes, role)[0];
    }
  }

  /** The hop selection of `create_circuit`: the registry is asked for
      entry, routing and exit nodes in that order, and the first empty
      answer is the error. */
  function SelectHops(nodes: seq<Node>): (r: Result<Hops>)
    ensures !HasAvailable(nodes, Entry) ==> r == Err(NO_ENTRY_NODES)
    ensures HasAvailable(nodes, Entry) && !HasAvailable(nodes, Routing) ==> r == Err(NO_ROUTING_NODES)
    ensures HasAvailable(nodes, Entry) && HasAvailable(nodes, Routing) && !HasAvailable(nodes, Exit) ==>
              r == Err(NO_EXIT_NODES)
    ensures r.Ok? <==> HasAvailable(nodes, Entry) && HasAvailable(nodes, Routing) && HasAvailable(nodes, Exit)
    ensures r.Ok? ==> |r.value.routing| == 2
  {
    AvailableIffListed(nodes, Entry);
    AvailableIffListed(nodes, Routing);
    AvailableIffListed(nodes, Exit);
    var entries := AvailableNodes(nodes, Entry);
    if |entries| == 0 then
      Err(NO_ENTRY_NODES)
    else
      var routers := AvailableNodes(nodes, Routing);
      if |routers| == 0 then
        Err(NO_ROUTING_NODES)
      else
        var exits := AvailableNodes(nodes, Exit);
        if |exits| == 0 then
          Err(NO_EXIT_NODES)
        else
          Ok(Hops(entries[0].id, [routers[0].id, routers[1 % |routers|].id], exits[0].id))
  }

  /** The first element of an availability query is the first available
      node in registration order. */
  lemma FirstOfAvailable(nodes: seq<Node>, role: NodeRole)
    requires |AvailableNodes(nodes, role)| > 0
    ensures exists i :: IsFirstAvailable(nodes, role, i) && nodes[i] == AvailableNodes(nodes, role)[0]
  {
    FilterAt(nodes, IsAvailableAs(role), 0);
    var i :| 0 <= i < |nodes| && nodes[i] == AvailableNodes(nodes, role)[0] &&
             IsAvailableAs(role)(nodes[i]) && |Filter(nodes[..i], IsAvailableAs(role))| == 0;
    forall j | 0 <= j < i
      ensures !(nodes[j].role == role && nodes[j].status == Online)
    {
      assert nodes[..i][j] == nodes[j];
    }
    assert IsFirstAvailable(nodes, role, i);
  }

  /** On success the hops are read off the three availability queries. */
  lemma SelectedFromQueries(nodes: seq<Node>)
    requires SelectHops(nodes).Ok?
    ensures var entries, routers, exits :=
              AvailableNodes(nodes, Entry), AvailableNodes(nodes, Routing), AvailableNodes(nodes, Exit);
            && |entries| > 0 && |routers| > 0 && |exits| > 0
            && SelectHops(nodes).value == Hops(entries[0].id, [routers[0].id, routers[1 % |routers|].id], exits[0].id)
  {
  }

  /** On success the entry and exit are the first available entry and exit
      nodes and the first routing hop is the first available routing node. */
  lemma SelectedFirstHops(nodes: seq<Node>)
    requires SelectHops(nodes).Ok?
    ensures var h := SelectHops(nodes).value;
      && (exists i :: IsFirstAvailable(nodes, Entry, i) && nodes[i].id == h.entry)
      && (exists i :: IsFirstAvailable(nodes, Exit, i) && nodes[i].id == h.exit)
      && (exists i :: IsFirstAvailable(nodes, Routing, i) && nodes[i].id == h.routing[0])
  {
    SelectedFromQueries(nodes);
    FirstOfAvailable(nodes, Entry);
    FirstOfAvailable(nodes, Routing);
    FirstOfAvailable(nodes, Exit);
  }

  /** The second routing hop is the second available routing node, or the
      first one again when only one routing node is available. */
  lemma SelectedSecondRoutingHop(nodes: seq<Node>)
    requires SelectHops(nodes).Ok?
    ensures var h := SelectHops(nodes).value;
      && (|AvailableNodes(nodes, Routing)| == 1 ==> h.routing[1] == h.routing[0])
      && (|AvailableNodes(nodes, Routing)| > 1 ==>
            exists i :: 0 <= i < |nodes| && nodes[i].id == h.routing[1] &&
                        nodes[i].role == Routing && nodes[i].status == Online &&
                        |AvailableNodes(nodes[..i], Routing)| == 1)
  {
    SelectedFromQueries(nodes);
    if |AvailableNodes(nodes, Routing)| > 1 {
      SmallModulus(1, |AvailableNodes(nodes, Routing)|);
      AvailableInOrder(nodes, Routing, 1);
    }
  }

  /** The circuit `create_circuit` returns, given the id it draws for the
      circuit, the serial number of the first key pair it draws, and the
      clock reading `now`. */
  function CircuitFor(nodes: seq<Node>, circuitUuid: Uuid, firstKey: nat, now: Time): (r: Result<Circuit>)
    ensures r.Err? <==> SelectHops(nodes).Err?
    ensures r.Err? ==> r.error == SelectHops(nodes).error
    ensures r.Ok? ==> var c := r.value; var h := SelectHops(nodes).value;
      && c.id == CircuitId(circuitUuid)
      && c.entryNode == h.entry && c.routingNodes == h.routing && c.exitNode == h.exit
      && |c.routingNodes| == 2
      && |c.symmetricKeys| == |c.routingNodes| + 2 == 4
      && (forall i :: 0 <= i < 4 ==> c.symmetricKeys[i] == KeyPairAt(firstKey + i).publicKey)
      && c.createdAt == now && c.expiresAt == now + CIRCUIT_LIFETIME
  {
    match SelectHops(nodes)
    case Err(e) => Err(e)
    case Ok(h) =>
      Ok(Circuit(CircuitId(circuitUuid), h.entry, h.routing, h.exit,
                 PublicKeysFrom(firstKey, |h.routing| + 2), now, now + CIRCUIT_LIFETIME))
  }

  /** `RouterImpl`: circuit construction over a node registry and a key
      generator. */
  class RouterImpl {
    const nodeManager: NodeManager
    const crypto: KeyGenerator

    constructor (nodeManager: NodeManager, crypto: KeyGenerator)
      ensures this.nodeManager == nodeManager && this.crypto == crypto
    {
      this.nodeManager := nodeManager;
      this.crypto := crypto;
    }

    /** The node queries of `create_circuit`, in the source's order. */
    method QueryHops() returns (r: Result<Hops>)
      ensures r == SelectHops(nodeManager.nodes)
    {
      var entryNodes := nodeManager.GetAvailableNodes(Entry);
      if |entryNodes| == 0 {
        return Err(NO_ENTRY_NODES);
      }
      var entryNode := entryNodes[0];

      var routingNodes := nodeManager.GetAvailableNodes(Routing);
      if |routingNodes| == 0 {
        return Err(NO_ROUTING_NODES);
      }
      var selectedRoutingNodes := [routingNodes[0].id, routingNodes[1 % |routingNodes|].id];

      var exitNodes := nodeManager.GetAvailableNodes(Exit);
      if |exitNodes| == 0 {
        return Err(NO_EXIT_NODES);
      }
      r := Ok(Hops(entryNode.id, selectedRoutingNodes, exitNodes[0].id));
    }

    /** `create_circuit`. A failed selection draws no key and no id. */
    method CreateCircuit(ids: UuidSource, now: Time) returns (r: Result<Circuit>)
      modifies crypto, ids
      ensures r == CircuitFor(nodeManager.nodes, Uuid(old(ids.issued)), old(crypto.drawn), now)
      ensures r.Ok? ==> crypto.drawn == old(crypto.drawn) + 4 && ids.issued == old(ids.issued) + 1
      ensures r.Err? ==> crypto.drawn == old(crypto.drawn) && ids.issued == old(ids.issued)
    {
      var hops := QueryHops();
      if hops.Err? {
        return Err(hops.error);
      }

      // One key per hop: the routing hops plus the entry and the exit.
      var symmetricKeys := crypto.GeneratePublicKeys(|hops.value.routing| + 2);

      var circuitUuid := ids.NewV4();
      r := Ok(Circuit(CircuitId(circuitUuid), hops.value.entry, hops.value.routing, hops.value.exit,
                      symmetricKeys, now, now + CIRCUIT_LIFETIME));
    }

    /** `send_request`: a placeholder that only draws a request id. */
    method SendRequest(circuit: Circuit, request: seq<Byte>, ids: UuidSource) returns (r: Result<Uuid>)
      modifies ids
      ensures r == Ok(Uuid(old(ids.issued))) && ids.issued == old(ids.issued) + 1
    {
      var requestId := ids.NewV4();
      r := Ok(requestId);
    }

    /** `receive_response`: a placeholder that returns fixed bytes. */
    method ReceiveResponse(requestId: Uuid) returns (r: Result<seq<Byte>>)
      ensures r == Ok(DUMMY_RESPONSE)
    {
      r := Ok(DUMMY_RESPONSE);
    }
  }
}
