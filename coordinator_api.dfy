/** The HTTP layer of the coordinator binary (coordinator.rs) over its node
    and provider registries. The registries never fail, so every command is
    acknowledged as a success and every query answered with a body.
 */
module CoordinatorApi {
  import opened Types
  import opened Nodes
  import opened Providers
  import opened Http

  /** `register_node`. */
  method RegisterNode(nodeManager: NodeManager, node: Node) returns (ack: Ack)
    modifies nodeManager
    ensures nodeManager.nodes == old(nodeManager.nodes) + [node]
    ensures ack == Acknowledge(Ok(())) == Ack(true, None)
  {
    nodeManager.RegisterNode(node);
    ack := Acknowledge(Ok(()));
  }

  /** `update_node_status`: acknowledged even for an unknown id. */
  method UpdateNodeStatus(nodeManager: NodeManager, id: NodeId, status: NodeStatus) returns (ack: Ack)
    modifies nodeManager
    ensures nodeManager.nodes == StatusUpdated(old(nodeManager.nodes), id, status)
    ensures ack == Acknowledge(Ok(())) == Ack(true, None)
  {
    nodeManager.UpdateNodeStatus(id, status);
    ack := Acknowledge(Ok(()));
  }

  /** `get_available_nodes`. */
  method GetAvailableNodes(nodeManager: NodeManager, role: NodeRole) returns (reply: Reply<seq<Node>>)
    ensures reply == ReplyFor(Ok(AvailableNodes(nodeManager.nodes, role)))
    ensures reply.Body? && forall i :: 0 <= i < |reply.value| ==> reply.value[i].role == role && reply.value[i].status == Online
  {
    var nodes := nodeManager.GetAvailableNodes(role);
    reply := ReplyFor(Ok(nodes));
  }

  /** `register_provider`. */
  method RegisterProvider(rpcManager: RpcManager, provider: RpcProvider) returns (ack: Ack)
    modifies rpcManager
    ensures rpcManager.providers == old(rpcManager.providers) + [provider]
    ensures ack == Acknowledge(Ok(())) == Ack(true, None)
  {
    rpcManager.RegisterProvider(provider);
    ack := Acknowledge(Ok(()));
  }

  /** `update_provider_status`: acknowledged even for an unknown id. */
  method UpdateProviderStatus(rpcManager: RpcManager, id: Uuid, active: bool) returns (ack: Ack)
    modifies rpcManager
    ensures rpcManager.providers == ActiveUpdated(old(rpcManager.providers), id, active)
    ensures ack == Acknowledge(Ok(())) == Ack(true, None)
  {
    rpcManager.UpdateProviderStatus(id, active);
    ack := Acknowledge(Ok(()));
  }

  /** `get_active_providers`. */
  method GetActiveProviders(rpcManager: RpcManager) returns (reply: Reply<seq<RpcProvider>>)
    ensures reply == ReplyFor(Ok(ActiveProviders(rpcManager.providers)))
    ensures reply.Body? && forall i :: 0 <= i < |reply.value| ==> reply.value[i].active
  {
    var providers := rpcManager.GetActiveProviders();
    reply := ReplyFor(Ok(providers));
  }

  /** `get_best_provider`: a body even when there is no active provider
      (then holding `None`). */
  method GetBestProvider(rpcManager: RpcManager) returns (reply: Reply<Option<RpcProvider>>)
    ensures reply == ReplyFor(Ok(BestProvider(rpcManager.providers)))
    ensures reply.Body? && (reply.value.None? <==> forall i :: 0 <= i < |rpcManager.providers| ==> !rpcManager.providers[i].active)
  {
    var provider := rpcManager.GetBestProvider();
    reply := ReplyFor(Ok(provider));
  }
}
