/** The node registry, `MockNodeManager`, which the coordinator, entry,
    exit and routing binaries each define identically: a `Vec<Node>` that
    nodes are appended to, whose first node with a given id can have its
    status overwritten, and that is queried by role or by id.
 */
module Nodes {
  import opened Types
  import opened Seqs

  /** The search key of `update_node_status` and `get_node`. */
  function HasId(id: NodeId): Node -> bool
  {
    (n: Node) => n.id == id
  }

  /** The filter of `get_available_nodes`. */
  function IsAvailableAs(role: NodeRole): Node -> bool
  {
    (n: Node) => n.role == role && n.status == Online
  }

  /** The write of `update_node_status`. */
  function WithStatusOf(status: NodeStatus): Node -> Node
  {
    (n: Node) => n.(status := status)
  }

  /** Exactly the nodes of `role` that are Online, in registration order. */
  function AvailableNodes(nodes: seq<Node>, role: NodeRole): (r: seq<Node>)
    ensures forall i :: 0 <= i < |r| ==> r[i] in nodes && r[i].role == role && r[i].status == Online
    ensures forall i :: 0 <= i < |nodes| && nodes[i].role == role && nodes[i].status == Online ==> nodes[i] in r
  {
    Filter(nodes, IsAvailableAs(role))
  }

  /** The first registered node with the id, or None. */
  function FindNode(nodes: seq<Node>, id: NodeId): (r: Option<Node>)
    ensures r.None? <==> forall i :: 0 <= i < |nodes| ==> nodes[i].id != id
    ensures r.Some? ==> exists i :: 0 <= i < |nodes| && nodes[i] == r.value && r.value.id == id &&
                                    forall j :: 0 <= j < i ==> nodes[j].id != id
  {
    FindFirst(nodes, HasId(id))
  }

  /** The registry after `update_node_status(id, status)`. */
  function StatusUpdated(nodes: seq<Node>, id: NodeId, status: NodeStatus): (r: seq<Node>)
    ensures |r| == |nodes|
  {
    UpdateFirst(nodes, HasId(id), WithStatusOf(status))
  }

  /** The k-th node of a role's query is an Online node of that role with
      exactly k such nodes registered before it: the query keeps the
      registration order and lists every available node once per entry. */
  lemma AvailableInOrder(nodes: seq<Node>, role: NodeRole, k: nat)
    requires k < |AvailableNodes(nodes, role)|
    ensures exists i :: 0 <= i < |nodes| && nodes[i] == AvailableNodes(nodes, role)[k] &&
                        nodes[i].role == role && nodes[i].status == Online &&
                        |AvailableNodes(nodes[..i], role)| == k
  {
    FilterAt(nodes, IsAvailableAs(role), k);
  }

  /** Registering a node appends it to the query result exactly when it is
      available in the queried role; earlier answers are kept, in order. */
  lemma AvailableAfterRegister(nodes: seq<Node>, node: Node, role: NodeRole)
    ensures AvailableNodes(nodes + [node], role) ==
            AvailableNodes(nodes, role) + (if node.role == role && node.status == Online then [node] else [])
  {
    FilterAppend(nodes, [node], IsAvailableAs(role));
    assert [node][1..] == [];
  }

  /** After registering, a lookup still finds the earlier node with the id
      if there is one, and otherwise finds the new node if its id matches. */
  lemma FindAfterRegister(nodes: seq<Node>, node: Node, id: NodeId)
    ensures FindNode(nodes + [node], id) ==
            if FindNode(nodes, id).Some? then FindNode(nodes, id)
            else if node.id == id then Some(node) else None
  {
    FindFirstAppend(nodes, [node], HasId(id));
    assert [node][1..] == [];
  }

  /** `update_node_status` changes only the first node with the id, and on
      it only the status; with an unknown id the registry is unchanged. */
  lemma {:induction false} StatusUpdatedOnlyFirstMatch(nodes: seq<Node>, id: NodeId, status: NodeStatus)
    ensures (forall i :: 0 <= i < |nodes| ==> nodes[i].id != id) ==> StatusUpdated(nodes, id, status) == nodes
    ensures forall i :: 0 <= i < |nodes| ==>
      StatusUpdated(nodes, id, status)[i] ==
        if nodes[i].id == id && forall j :: 0 <= j < i ==> nodes[j].id != id
        then nodes[i].(status := status) else nodes[i]
  {
    var r := StatusUpdated(nodes, id, status);
    var first := FirstIndex(nodes, HasId(id));
    forall i | 0 <= i < |nodes|
      ensures r[i] == if nodes[i].id == id && forall j :: 0 <= j < i ==> nodes[j].id != id
                      then nodes[i].(status := status) else nodes[i]
    {
      if nodes[i].id == id && forall j :: 0 <= j < i ==> nodes[j].id != id {
        assert HasId(id)(nodes[i]);
        assert first == Some(i);
      }
    }
  }

  /** `get_node` right after `update_node_status` sees the new status. */
  lemma FindAfterStatusUpdate(nodes: seq<Node>, id: NodeId, status: NodeStatus)
    ensures FindNode(StatusUpdated(nodes, id, status), id) ==
            match FindNode(nodes, id) case None => None case Some(n) => Some(n.(status := status))
  {
    FindAfterUpdateFirst(nodes, HasId(id), WithStatusOf(status));
  }

  /** Setting the same status twice is the same as setting it once. */
  lemma StatusUpdateIdempotent(nodes: seq<Node>, id: NodeId, status: NodeStatus)
    ensures StatusUpdated(StatusUpdated(nodes, id, status), id, status) == StatusUpdated(nodes, id, status)
  {
    UpdateFirstIdempotent(nodes, HasId(id), WithStatusOf(status));
  }

  /** `MockNodeManager`. Every operation of the source returns `Ok`; the
      methods below return the wrapped value itself. */
  class NodeManager {
    var nodes: seq<Node>

    constructor ()
      ensures nodes == []
    {
      nodes := [];
    }

    method RegisterNode(node: Node)
      modifies this
      ensures nodes == old(nodes) + [node]
    {
      nodes := nodes + [node];
    }

    method UpdateNodeStatus(id: NodeId, status: NodeStatus)
      modifies this
      ensures nodes == StatusUpdated(old(nodes), id, status)
    {
      var found := FirstIndex(nodes, HasId(id));
      if found.Some? {
        var i := found.value;
        nodes := nodes[i := nodes[i].(status := status)];
      }
    }

    method GetAvailableNodes(role: NodeRole) returns (r: seq<Node>)
      ensures r == AvailableNodes(nodes, role)
      ensures forall i :: 0 <= i < |r| ==> r[i].role == role && r[i].status == Online
    {
      r := Filter(nodes, IsAvailableAs(role));
    }

    method GetNode(id: NodeId) returns (r: Option<Node>)
      ensures r == FindNode(nodes, id)
      ensures r.Some? ==> r.value in nodes && r.value.id == id
    {
      r := FindFirst(nodes, HasId(id));
    }
  }
}
