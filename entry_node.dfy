/** `EntryNodeService` (lib.rs): the entry point of a user's request. It
    checks the API key against the user registry, passes the request through
    the sanitizer, reuses the user's circuit while it has not expired (or
    builds and caches a new one), sends the request along the circuit and
    hands back the response.
 */
module EntryNode {
  import opened Types
  import opened Entropy
  import opened Users
  import opened Circuits
  import EntryMocks

  const INVALID_API_KEY: string := "Invalid API key"
  const SUBSCRIPTION_INACTIVE: string := "User subscription is not active"

  /** The API-key gate of `handle_request`, given what the key lookup
      returned: only an active user passes. */
  function Authorize(user: Option<User>): (r: Result<User>)
    ensures r.Ok? <==> user.Some? && user.value.active
    ensures r.Ok? ==> r.value == user.value
    ensures user.None? ==> r == Err(INVALID_API_KEY)
    ensures user.Some? && !user.value.active ==> r == Err(SUBSCRIPTION_INACTIVE)
  {
    match user
    case Some(u) => if u.active then Ok(u) else Err(SUBSCRIPTION_INACTIVE)
    case None => Err(INVALID_API_KEY)
  }

  /** A user `create_user` has just registered passes the gate with its own
      key, unless an earlier user already held that key. */
  lemma CreatedUserAuthorized(users: seq<User>, id: Uuid, walletAddress: string, keyUuid: Uuid)
    requires forall i :: 0 <= i < |users| ==> users[i].apiKey != ApiKeyFor(keyUuid)
    ensures var u := NewUser(id, walletAddress, keyUuid);
            Authorize(FindByApiKey(users + [u], u.apiKey)) == Ok(u)
  {
    var u := NewUser(id, walletAddress, keyUuid);
    FindCreatedByApiKey(users, u);
  }

  /** The cache holds a circuit for the key that has not expired at `now`
      (an expiry equal to `now` counts as expired). */
  predicate Live(cache: map<string, Circuit>, apiKey: string, now: Time)
  {
    apiKey in cache && cache[apiKey].expiresAt > now
  }

  /** `get_or_create_circuit`: the circuit it returns and the cache it
      leaves, given the outcome `created` that `create_circuit` would have if
      it were called. */
  function CircuitLookup(cache: map<string, Circuit>, apiKey: string, now: Time, created: Result<Circuit>)
    : (r: (Result<Circuit>, map<string, Circuit>))
    ensures Live(cache, apiKey, now) ==> r == (Ok(cache[apiKey]), cache)
    ensures !Live(cache, apiKey, now) ==> r.0 == created
    ensures r.0.Ok? ==> apiKey in r.1 && r.1[apiKey] == r.0.value
    ensures r.0.Err? ==> r.1 == cache
    ensures forall k :: k != apiKey ==> (k in r.1 <==> k in cache)
    ensures forall k :: k != apiKey && k in cache ==> r.1[k] == cache[k]
  {
    if Live(cache, apiKey, now) then
      (Ok(cache[apiKey]), cache)
    else
      match created
      case Err(e) => (Err(e), cache)
      case Ok(c) => (Ok(c), cache[apiKey := c])
  }

  /** A circuit built at `now` is served from the cache, unchanged and
      without building another, for exactly one hour: at every later
      instant before `now + 3600`, and no longer from `now + 3600` on. */
  lemma CircuitReusedForOneHour(cache: map<string, Circuit>, apiKey: string, nodes: seq<Node>,
                                circuitUuid: Uuid, firstKey: nat, now: Time, later: Time,
                                createdLater: Result<Circuit>)
    requires !Live(cache, apiKey, now)
    requires CircuitFor(nodes, circuitUuid, firstKey, now).Ok?
    requires now <= later
    ensures var first := CircuitLookup(cache, apiKey, now, CircuitFor(nodes, circuitUuid, firstKey, now));
            var second := CircuitLookup(first.1, apiKey, later, createdLater);
            && (later < now + CIRCUIT_LIFETIME ==> second == first)
            && (later >= now + CIRCUIT_LIFETIME ==> second.0 == createdLater)
  {
  }

  /** `EntryNodeService`, wired to `RouterImpl` and to the entry binary's
      user registry and sanitizer. `active_circuits` is a map from API key
      to circuit. */
  class EntryNodeService {
    const nodeId: NodeId
    const router: RouterImpl
    const userManager: UserManager
    var activeCircuits: map<string, Circuit>

    constructor (nodeId: NodeId, router: RouterImpl, userManager: UserManager)
      ensures this.nodeId == nodeId && this.router == router && this.userManager == userManager
      ensures activeCircuits == map[]
    {
      this.nodeId := nodeId;
      this.router := router;
      this.userManager := userManager;
      activeCircuits := map[];
    }

    /** `get_or_create_circuit`. A live cached circuit costs no identifier
        and no key. */
    method GetOrCreateCircuit(apiKey: string, ids: UuidSource, now: Time) returns (r: Result<Circuit>)
      modifies this, router.crypto, ids
      ensures (r, activeCircuits) ==
              CircuitLookup(old(activeCircuits), apiKey, now,
                            CircuitFor(router.nodeManager.nodes, Uuid(old(ids.issued)), old(router.crypto.drawn), now))
      ensures Live(old(activeCircuits), apiKey, now) || r.Err? ==>
                ids.issued == old(ids.issued) && router.crypto.drawn == old(router.crypto.drawn)
      ensures !Live(old(activeCircuits), apiKey, now) && r.Ok? ==>
                ids.issued == old(ids.issued) + 1 && router.crypto.drawn == old(router.crypto.drawn) + 4
    {
      if apiKey in activeCircuits && activeCircuits[apiKey].expiresAt > now {
        return Ok(activeCircuits[apiKey]);
      }
      var created := router.CreateCircuit(ids, now);
      if created.Err? {
        return Err(created.error);
      }
      activeCircuits := activeCircuits[apiKey := created.value];
      r := Ok(created.value);
    }

    /** `handle_request`. An unknown key or an inactive user ends the
        request before the sanitizer and the router are reached: nothing is
        cached and no identifier or key is drawn. */
    method HandleRequest(apiKey: string, request: seq<Byte>, ids: UuidSource, now: Time) returns (r: Result<seq<Byte>>)
      modifies this, router.crypto, ids
      ensures var auth := Authorize(FindByApiKey(userManager.users, apiKey));
              auth.Err? ==>
                && r == Err(auth.error)
                && activeCircuits == old(activeCircuits)
                && ids.issued == old(ids.issued) && router.crypto.drawn == old(router.crypto.drawn)
      ensures var auth := Authorize(FindByApiKey(userManager.users, apiKey));
              var step := CircuitLookup(old(activeCircuits), apiKey, now,
                            CircuitFor(router.nodeManager.nodes, Uuid(old(ids.issued)), old(router.crypto.drawn), now));
              auth.Ok? ==>
                && activeCircuits == step.1
                && (step.0.Err? ==> r == Err(step.0.error))
                && (step.0.Ok? ==> r == Ok(DUMMY_RESPONSE))
      ensures var auth := Authorize(FindByApiKey(userManager.users, apiKey));
              var live := Live(old(activeCircuits), apiKey, now);
              auth.Ok? ==>
                && (r.Err? ==> ids.issued == old(ids.issued) && router.crypto.drawn == old(router.crypto.drawn))
                && (r.Ok? ==> ids.issued == old(ids.issued) + (if live then 1 else 2) &&
                              router.crypto.drawn == old(router.crypto.drawn) + (if live then 0 else 4))
    {
      var user := userManager.GetUserByApiKey(apiKey);
      var auth := Authorize(user);
      if auth.Err? {
        return Err(auth.error);
      }

      var sanitizedRequest := EntryMocks.SanitizeRequest(request).value;

      var circuit := GetOrCreateCircuit(apiKey, ids, now);
      if circuit.Err? {
        return Err(circuit.error);
      }

      var requestId := router.SendRequest(circuit.value, sanitizedRequest, ids);
      var response := router.ReceiveResponse(requestId.value);
      r := EntryMocks.PrepareResponse(response.value);
    }
  }
}
