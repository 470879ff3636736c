/** Core value types of the DarkNode backend (the `types` module of lib.rs).

    Identifiers that the program draws at random (`Uuid::new_v4`) are plain
    numbers here; wall-clock instants (`SystemTime`) are whole seconds since
    the Unix epoch; byte strings are sequences of `Byte`, the integers 0..255.
 */
module Types {

  datatype Option<+T> = None | Some(value: T)

  /** `anyhow::Result`: a value or an error message. */
  datatype Result<+T> = Ok(value: T) | Err(error: string)

  /** `u8`. */
  newtype Byte = x: int | 0 <= x < 0x100

  /** Seconds since the Unix epoch. */
  type Time = nat

  /** A TCP port (`u16`). */
  type Port = x: int | 0 <= x < 0x1_0000

  datatype Uuid = Uuid(value: nat)

  datatype NodeId = NodeId(uuid: Uuid)

  datatype CircuitId = CircuitId(uuid: Uuid)

  datatype CryptoKey = CryptoKey(bytes: seq<Byte>)

  datatype EncryptedData = EncryptedData(data: seq<Byte>, nonce: seq<Byte>, aad: Option<seq<Byte>>)

  datatype NodeRole = Entry | Routing | Exit | Coordinator

  datatype NodeStatus = Online | Busy | Offline | Maintenance

  /** An IPv4 or IPv6 address, kept as its octets. */
  datatype IpAddr = IpAddr(octets: seq<Byte>)

  /** A relay node; the `load: f32` field is not part of the model. */
  datatype Node = Node(
    id: NodeId,
    role: NodeRole,
    status: NodeStatus,
    publicKey: CryptoKey,
    ipAddress: IpAddr,
    port: Port,
    lastSeen: Time,
    region: string)

  /** An upstream RPC provider. `successRate` stands for the source's
      `f32` in basis points (0.99 is 9900); `avgLatencyMs` is the
      average latency in milliseconds. */
  datatype RpcProvider = RpcProvider(
    id: Uuid,
    url: string,
    providerType: string,
    active: bool,
    successRate: int,
    avgLatencyMs: nat,
    lastChecked: Time)

  datatype RpcMapping = RpcMapping(
    id: Uuid,
    originalRpc: string,
    darknodeHttpsRpc: string,
    darknodeWssRpc: string,
    createdAt: Time)

  datatype User = User(
    id: Uuid,
    walletAddress: string,
    apiKey: string,
    active: bool,
    expiresAt: Option<Time>,
    rpcMappings: seq<RpcMapping>)

  datatype Circuit = Circuit(
    id: CircuitId,
    entryNode: NodeId,
    routingNodes: seq<NodeId>,
    exitNode: NodeId,
    symmetricKeys: seq<CryptoKey>,
    createdAt: Time,
    expiresAt: Time)

  datatype Request = Request(id: Uuid, circuitId: CircuitId, payload: EncryptedData, createdAt: Time)

  datatype Response = Response(requestId: Uuid, circuitId: CircuitId, payload: EncryptedData, createdAt: Time)

  /** Reducing a number modulo a larger one leaves it unchanged. */
  lemma SmallModulus(x: nat, modulus: nat)
    requires x < modulus
    ensures x % modulus == x
  {
  }
}
