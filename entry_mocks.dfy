/** The stand-ins the entry binary wires into its service (entry_node.rs):
    `MockRouter`, which builds a circuit out of fresh identifiers without
    consulting any node registry, and `MockRequestSanitizer`, which passes
    requests and responses through unchanged.
 */
module EntryMocks {
  import opened Types
  import opened Entropy
  import Circuits
  import Json

  /** `sanitize_request`: the request as received. */
  function SanitizeRequest(request: seq<Byte>): (r: Result<seq<Byte>>)
    ensures r.Ok? && r.value == request
  {
    Ok(request)
  }

  /** `prepare_response`: the response as received. Both hooks of the
      sanitizer are the same identity in the entry binary; they are kept
      apart because the service calls them at different points. */
  function PrepareResponse(response: seq<Byte>): (r: Result<seq<Byte>>)
    ensures r.Ok? && r.value == response
  {
    Ok(response)
  }

  /** Sanitising and then preparing leaves every byte string as it was, so
      the sanitizer hides nothing from the routers. */
  lemma SanitizerIsTransparent(bytes: seq<Byte>)
    ensures PrepareResponse(SanitizeRequest(bytes).value) == Ok(bytes)
  {
  }

  /** The circuit `MockRouter::create_circuit` returns when the next fresh
      identifier is `Uuid(firstId)` and the next key pair is number
      `firstKey`: four fresh node ids, then the circuit id. */
  function MockCircuit(firstId: nat, firstKey: nat, now: Time): (c: Circuit)
    ensures |c.routingNodes| == 2
    ensures |c.symmetricKeys| == |c.routingNodes| + 2
    ensures forall i :: 0 <= i < |c.symmetricKeys| ==> c.symmetricKeys[i] == KeyPairAt(firstKey + i).publicKey
    ensures c.entryNode != c.exitNode && c.routingNodes[0] != c.routingNodes[1]
    ensures c.entryNode !in c.routingNodes && c.exitNode !in c.routingNodes
    ensures c.createdAt == now && c.expiresAt == now + Circuits.CIRCUIT_LIFETIME
  {
    Circuit(CircuitId(Uuid(firstId + 4)),
            NodeId(Uuid(firstId)),
            [NodeId(Uuid(firstId + 1)), NodeId(Uuid(firstId + 2))],
            NodeId(Uuid(firstId + 3)),
            PublicKeysFrom(firstKey, 4),
            now, now + Circuits.CIRCUIT_LIFETIME)
  }

  /** The JSON-RPC reply `MockRouter::receive_response` serialises. */
  const MOCK_REPLY: Json.Value :=
    Json.Object(map["jsonrpc" := Json.Str("2.0"), "id" := Json.Number(1), "result" := Json.Str("0x123456")])

  /** `MockRouter`. */
  class MockRouter {
    const crypto: KeyGenerator

    constructor (crypto: KeyGenerator)
      ensures this.crypto == crypto
    {
      this.crypto := crypto;
    }

    /** `create_circuit`: never fails; draws five identifiers and four key
        pairs. */
    method CreateCircuit(ids: UuidSource, now: Time) returns (r: Result<Circuit>)
      modifies crypto, ids
      ensures r == Ok(MockCircuit(old(ids.issued), old(crypto.drawn), now))
      ensures ids.issued == old(ids.issued) + 5 && crypto.drawn == old(crypto.drawn) + 4
    {
      var entryNode := ids.NewV4();
      var routing0 := ids.NewV4();
      var routing1 := ids.NewV4();
      var routingNodes := [NodeId(routing0), NodeId(routing1)];
      var exitNode := ids.NewV4();

      var symmetricKeys := crypto.GeneratePublicKeys(|routingNodes| + 2);

      var circuitUuid := ids.NewV4();
      r := Ok(Circuit(CircuitId(circuitUuid), NodeId(entryNode), routingNodes, NodeId(exitNode),
                      symmetricKeys, now, now + Circuits.CIRCUIT_LIFETIME));
    }

    /** `send_request`: a fresh request id. */
    method SendRequest(circuit: Circuit, request: seq<Byte>, ids: UuidSource) returns (r: Result<Uuid>)
      modifies ids
      ensures r == Ok(Uuid(old(ids.issued))) && ids.issued == old(ids.issued) + 1
    {
      var requestId := ids.NewV4();
      r := Ok(requestId);
    }

    /** `receive_response`: the fixed JSON-RPC reply (as a value; its
        serialisation is not modelled). */
    method ReceiveResponse(requestId: Uuid) returns (r: Result<Json.Value>)
      ensures r == Ok(MOCK_REPLY)
    {
      r := Ok(MOCK_REPLY);
    }
  }
}
