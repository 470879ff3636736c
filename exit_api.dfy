/** The HTTP layer of the exit binary (exit_node.rs). */
module ExitApi {
  import opened Types
  import opened Providers
  import opened Http
  import opened ExitNode

  /** `handle_circuit_request`: the service's response, or status 500 when
      the service fails. */
  method HandleCircuitRequest(service: ExitNodeService, request: Request, now: Time) returns (reply: Reply<Response>)
    ensures reply == ReplyFor(ExitResponse(request, BestProvider(service.rpcManager.providers), now))
    ensures reply.Status? <==> forall i :: 0 <= i < |service.rpcManager.providers| ==> !service.rpcManager.providers[i].active
    ensures reply.Body? ==> reply.value.requestId == request.id && reply.value.payload == request.payload
  {
    var response := service.HandleRequest(request, now);
    reply := ReplyFor(response);
  }
}
