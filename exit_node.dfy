/** `ExitNodeService` (lib.rs): the last hop. It refuses a request when no
    upstream provider is active and otherwise answers with a response that
    echoes the request.
 */
module ExitNode {
  import opened Types
  import opened Providers

  const NO_PROVIDERS: string := "No available RPC providers"

  /** The outcome of `handle_request` for `request`, given the answer of
      `get_best_provider` and the clock reading `now`. */
  function ExitResponse(request: Request, best: Option<RpcProvider>, now: Time): (r: Result<Response>)
    ensures r.Err? <==> best.None?
    ensures r.Err? ==> r.error == NO_PROVIDERS
    ensures r.Ok? ==> && r.value.requestId == request.id
                      && r.value.circuitId == request.circuitId
                      && r.value.payload == request.payload
                      && r.value.createdAt == now
  {
    match best
    case None => Err(NO_PROVIDERS)
    case Some(_) => Ok(Response(request.id, request.circuitId, request.payload, now))
  }

  /** With the two providers the exit binary starts with, every request is
      answered. */
  lemma InitialProvidersServe(first: Uuid, second: Uuid, start: Time, request: Request, now: Time)
    ensures ExitResponse(request, BestProvider(InitialProviders(first, second, start)), now).Ok?
  {
  }

  /** Once the only active provider is deactivated, every request is
      refused. */
  lemma {:induction false} RefusedAfterLastDeactivated(providers: seq<RpcProvider>, k: nat, request: Request, now: Time)
    requires k < |providers| && providers[k].active
    requires forall i :: 0 <= i < |providers| && i != k ==> !providers[i].active
    requires forall j :: 0 <= j < k ==> providers[j].id != providers[k].id
    ensures ExitResponse(request, BestProvider(ActiveUpdated(providers, providers[k].id, false)), now) == Err(NO_PROVIDERS)
  {
    DeactivateLastActive(providers, k);
  }

  /** `ExitNodeService`. */
  class ExitNodeService {
    const nodeId: NodeId
    const rpcManager: RpcManager

    constructor (nodeId: NodeId, rpcManager: RpcManager)
      ensures this.nodeId == nodeId && this.rpcManager == rpcManager
    {
      this.nodeId := nodeId;
      this.rpcManager := rpcManager;
    }

    /** `handle_request`: fails exactly when no provider is active. */
    method HandleRequest(request: Request, now: Time) returns (r: Result<Response>)
      ensures r == ExitResponse(request, BestProvider(rpcManager.providers), now)
      ensures r.Err? <==> forall i :: 0 <= i < |rpcManager.providers| ==> !rpcManager.providers[i].active
    {
      var provider := rpcManager.GetBestProvider();
      if provider.None? {
        return Err(NO_PROVIDERS);
      }
      r := Ok(Response(request.id, request.circuitId, request.payload, now));
    }
  }
}
