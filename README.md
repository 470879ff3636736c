# DarkNode backend bookkeeping, modelled in Dafny

DarkNode relays blockchain RPC requests through three kinds of node: entry, routing and exit. The coordinator binary keeps the node and provider registries, the entry binary keeps the users, and every binary holds its own node registry. The Rust backend implements a bookkeeping layer, and this project models it:

- **Registries.** Three in-memory registries, each a vector behind a lock:
  - `MockNodeManager` holds nodes. It is defined identically in all four binaries.
  - `MockRpcManager` holds upstream RPC providers. It is defined in the coordinator and exit binaries.
  - `MockUserManager` holds users and their RPC mappings. It is defined in the entry binary.
  - Nodes support append, a status write to the first node with an id, a filter by role and Online status, and a find-first by id.
  - Providers support append, a write of the `active` flag of the first provider with an id, a filter on `active`, and the maximum success rate among the active ones.
  - Users support append, an append to the mapping list of the first user with an id, and find-first by API key, by wallet and by id.
- **Circuit construction.** `RouterImpl::create_circuit` picks:
  - the first available entry node;
  - the routing nodes `[0]` and `[1 % n]` (`n` is the number of available routing nodes);
  - the first available exit node.

  It then draws one key per hop and gives the circuit a one-hour lifetime.
- **The entry service.** `EntryNodeService` proceeds in this order:
  1. gate on the API key and the subscription;
  2. sanitise the request;
  3. take the user's circuit from a cache keyed by API key, if it has not expired, or otherwise build and cache a new one;
  4. send the request along the circuit.
- **The exit service.** `ExitNodeService` refuses a request when no provider is active. Otherwise it echoes the request's fields into the response.
- **The HTTP layer.** Service outcomes become replies:
  - a command's `Ok`/`Err` becomes `{ success, error }`;
  - a query's error becomes status 500;
  - `handle_rpc` checks the reply fields for null.

The hop handlers do no cryptography. `RoutingNodeService::handle_request` and `handle_response` only log and return `Ok` (lib.rs:585-612), and `ExitNodeService::handle_request` echoes the request instead of forwarding it. Their comments list the per-hop decryption and re-encryption a full implementation would do (lib.rs:586-590, 600-604, 644-649). This model follows the code.

Modules, one per concern of the source:

| module | file | models |
|---|---|---|
| `Types` | types.dfy | the records of the `types` module of lib.rs |
| `Seqs` | seqs.dfy | `iter().find`, `iter().filter().collect()` and `iter_mut().find` followed by a field write, on `seq` |
| `Entropy` | entropy.dfy | `Uuid::new_v4` and `generate_keypair` as deterministic counters; the key-collecting loop |
| `Nodes` | nodes.dfy | `MockNodeManager`, as the class `NodeManager` |
| `Providers` | providers.dfy | `MockRpcManager`, as the class `RpcManager` |
| `Users` | users.dfy | `MockUserManager`, as the class `UserManager`, and the `api-<uuid>` key format |
| `Circuits` | circuits.dfy | `RouterImpl` |
| `EntryMocks` | entry_mocks.dfy | the entry binary's `MockRouter` and `MockRequestSanitizer` |
| `EntryNode` | entry_node.dfy | `EntryNodeService` |
| `ExitNode` | exit_node.dfy | `ExitNodeService` |
| `Json` | json.dfy | `serde_json::Value` and its `value["key"]` lookup |
| `Http` | http.dfy | the handlers' shared result-to-reply mappings |
| `CoordinatorApi` | coordinator_api.dfy | the coordinator binary's registry handlers |
| `ExitApi` | exit_api.dfy | the exit binary's `handle_circuit_request` |
| `EntryApi` | entry_api.dfy | the entry binary's `handle_rpc` |

A registry class's `seq` field is reassigned by its methods in the order the Rust code pushes and writes. Each state-changing method is specified by a function of the old state, for example `StatusUpdated`, `ActiveUpdated` or `MappingAdded`. Lemmas about those functions state the "only the first match changes" and "unknown id is a no-op" properties.

## Model

| member | source | states |
|---|---|---|
| `Nodes.NodeManager.constructor` | backend/src/bin/routing_node.rs:83-89 | a new node registry is empty |
| `Nodes.NodeManager.RegisterNode` | backend/src/bin/coordinator.rs:166-170 | the node is appended: the new list is the old list followed by the node |
| `Nodes.NodeManager.UpdateNodeStatus` | backend/src/bin/coordinator.rs:172-178 | the new list is `StatusUpdated` of the old one, so only the first node with the id changes (see `StatusUpdatedOnlyFirstMatch`) |
| `Nodes.NodeManager.GetAvailableNodes` | backend/src/bin/coordinator.rs:180-187 | returns `AvailableNodes` of the registry; every returned node has the role and is Online |
| `Nodes.NodeManager.GetNode` | backend/src/bin/coordinator.rs:189-192 | returns `FindNode` of the registry; a found node is registered and has the id |
| `Nodes.AvailableNodes` | backend/src/bin/entry_node.rs:99-106 | every result is a registered Online node of the role, and every registered Online node of the role is in the result |
| `Nodes.FindNode` | backend/src/bin/exit_node.rs:98-101 | None exactly when no node has the id; otherwise the node at the first index with the id |
| `Nodes.StatusUpdated` | backend/src/bin/coordinator.rs:172-178 | the registry after a status update keeps its length; which element changes, and how, is stated by `StatusUpdatedOnlyFirstMatch` |
| `Nodes.AvailableInOrder` | backend/src/bin/entry_node.rs:99-106 | the k-th node of a role query is an Online node of the role with exactly k such nodes registered before it, so the query keeps registration order |
| `Nodes.StatusUpdatedOnlyFirstMatch` | backend/src/bin/entry_node.rs:91-97 | an unknown id leaves the list unchanged; otherwise exactly the first node with the id gets the new status, and every other node and field is unchanged |
| `Nodes.AvailableAfterRegister` | backend/src/bin/exit_node.rs:75-96 | after registering, a role query answers the old answer in the same order, followed by the new node exactly when it is Online in that role |
| `Nodes.FindAfterRegister` | backend/src/bin/routing_node.rs:93-119 | after registering, a lookup still finds the earlier node with the id if there is one, and otherwise the new node if its id matches |
| `Nodes.FindAfterStatusUpdate` | backend/src/bin/routing_node.rs:99-119 | a lookup right after a status update returns the found node with the new status, or None for an unknown id |
| `Nodes.StatusUpdateIdempotent` | backend/src/bin/exit_node.rs:81-87 | setting the same status twice equals setting it once |
| `Providers.InitialProviders` | backend/src/bin/coordinator.rs:200-228 | the seed list has two active providers of type "solana", the mainnet-beta endpoint first and the projectserum endpoint second, with the given ids; the best of them is the first |
| `Providers.RpcManager.constructor` | backend/src/bin/exit_node.rs:110-137 | a new provider registry holds `InitialProviders` and draws two fresh ids |
| `Providers.RpcManager.RegisterProvider` | backend/src/bin/coordinator.rs:233-237 | the provider is appended |
| `Providers.RpcManager.UpdateProviderStatus` | backend/src/bin/coordinator.rs:239-245 | the new list is `ActiveUpdated` of the old one |
| `Providers.RpcManager.GetActiveProviders` | backend/src/bin/coordinator.rs:247-250 | returns `ActiveProviders`; all returned providers are active |
| `Providers.RpcManager.GetBestProvider` | backend/src/bin/coordinator.rs:252-267 | returns `BestProvider`; None exactly when no provider is active |
| `Providers.ActiveProviders` | backend/src/bin/exit_node.rs:156-159 | every result is an active registered provider, and every active registered provider is in the result |
| `Providers.ActiveUpdated` | backend/src/bin/coordinator.rs:239-245 | the registry after a status update keeps its length; which element changes, and how, is stated by `ActiveUpdatedOnlyFirstMatch` |
| `Providers.ActiveInOrder` | backend/src/bin/exit_node.rs:156-159 | the k-th active provider is an active provider with exactly k active providers registered before it, so the list keeps registration order |
| `Providers.MaxBySuccessRate` | backend/src/bin/coordinator.rs:260-264 | the result is in the list, no element has a higher rate, and among equal rates the result is the last one (`max_by` keeps the last maximum) |
| `Providers.BestProvider` | backend/src/bin/exit_node.rs:161-176 | None exactly when no provider is active; otherwise an active registered provider whose rate no active provider exceeds |
| `Providers.ActiveAfterRegister` | backend/src/bin/exit_node.rs:142-159 | after registering, the active list is the old one followed by the new provider exactly when it is active |
| `Providers.ActiveUpdatedOnlyFirstMatch` | backend/src/bin/exit_node.rs:148-154 | an unknown id leaves the list unchanged; otherwise only the first provider with the id gets the new flag |
| `Providers.DeactivateLastActive` | backend/src/bin/coordinator.rs:239-258 | deactivating the only active provider leaves no best provider |
| `Users.ApiKeyFor` | backend/src/bin/entry_node.rs:207 | an API key is "api-" followed by the 36-character hyphenated UUID, 40 characters in all |
| `Users.UuidText` | backend/src/bin/entry_node.rs:207 | a UUID is displayed as 36 characters with hyphens at positions 8, 13, 18 and 23 |
| `Users.ApiKeyInjective` | backend/src/bin/entry_node.rs:203-222 | different 128-bit UUIDs give different API keys, so a key lookup tells their users apart |
| `Users.NewUser` | backend/src/bin/entry_node.rs:204-211 | a new user is active, never expires, has no mappings, has the given wallet and an "api-" key |
| `Users.FindByApiKey` | backend/src/bin/entry_node.rs:219-222 | None exactly when no user has the key; otherwise the first user with the key |
| `Users.FindByWallet` | backend/src/bin/entry_node.rs:224-230 | None exactly when no user has the wallet; otherwise the first user with the wallet |
| `Users.MappingsOf` | backend/src/bin/entry_node.rs:244-251 | for a known id, the mapping list of the first user with that id; empty for an unknown id |
| `Users.MappingAdded` | backend/src/bin/entry_node.rs:232-242 | the registry after `add_rpc_mapping` keeps its length; which user changes, and how, is stated by `MappingAddedOnlyFirstMatch` |
| `Users.FindCreatedByApiKey` | backend/src/bin/entry_node.rs:212-216 | after a user is appended, a lookup by its key returns it unless an earlier user already holds that key |
| `Users.FindCreatedByWallet` | backend/src/bin/entry_node.rs:224-229 | the same for the wallet lookup |
| `Users.MappingsAfterAdd` | backend/src/bin/entry_node.rs:232-251 | after `add_rpc_mapping`, `get_rpc_mappings` returns the old list plus the mapping; for an unknown id both stay empty |
| `Users.MappingAddedOnlyFirstMatch` | backend/src/bin/entry_node.rs:237-241 | an unknown id is a no-op; otherwise only the first user with the id changes, and only in its mapping list |
| `Users.UserManager.constructor` | backend/src/bin/entry_node.rs:193-199 | a new user registry is empty |
| `Users.UserManager.CreateUser` | backend/src/bin/entry_node.rs:203-217 | returns `NewUser` built from two fresh UUIDs (the id, then the key's UUID) and appends it |
| `Users.UserManager.GetUserByApiKey` | backend/src/bin/entry_node.rs:219-222 | returns `FindByApiKey`; a found user is registered and has the key |
| `Users.UserManager.GetUserByWallet` | backend/src/bin/entry_node.rs:224-230 | returns `FindByWallet`; a found user is registered and has the wallet |
| `Users.UserManager.AddRpcMapping` | backend/src/bin/entry_node.rs:232-242 | the new list is `MappingAdded` of the old one |
| `Users.UserManager.GetRpcMappings` | backend/src/bin/entry_node.rs:244-251 | returns `MappingsOf`: the mapping list of the first user with the id, or empty for an unknown id |
| `Entropy.KeyPairAt` | backend/src/lib.rs:305-311 | both halves of a generated key pair are 32 bytes long |
| `Entropy.UuidSource.NewV4` | backend/src/lib.rs:456 | each call returns the next identifier of the counter and advances it, so no identifier is returned twice |
| `Entropy.PublicKeysFrom` | backend/src/lib.rs:431-435 | `count` keys, the i-th being the public half of key pair `start + i` |
| `Entropy.KeyGenerator.GenerateKeypair` | backend/src/lib.rs:305-311 | each call returns the next key pair of the sequence and advances it by one |
| `Entropy.KeyGenerator.GeneratePublicKeys` | backend/src/lib.rs:431-435 | the loop collects the public halves of `count` consecutive fresh key pairs, in order, and draws exactly `count` pairs |
| `Circuits.SelectHops` | backend/src/lib.rs:398-428 | fails with "No available entry nodes" when no entry node is Online, otherwise with "No available routing nodes" when no routing node is Online, otherwise with "No available exit nodes" when no exit node is Online; succeeds exactly when all three roles are available, with two routing hops |
| `Circuits.AvailableIffListed` | backend/src/lib.rs:400-403 | a role has an Online node exactly when its availability query is non-empty |
| `Circuits.FirstOfAvailable` | backend/src/lib.rs:406 | the head of an availability query is the first Online node of the role in registration order |
| `Circuits.SelectedFirstHops` | backend/src/lib.rs:400-428 | the entry and exit hops are the first Online entry and exit nodes, and the first routing hop the first Online routing node |
| `Circuits.SelectedSecondRoutingHop` | backend/src/lib.rs:416-419 | the second routing hop is the second Online routing node, or the first one again when only one is Online |
| `Circuits.CircuitFor` | backend/src/lib.rs:398-449 | fails exactly when selection fails, with its message; otherwise the circuit has the selected hops, `2 + 2 = 4` keys from consecutive fresh key pairs, and expires 3600 s after `now` |
| `Circuits.RouterImpl.constructor` | backend/src/lib.rs:385-393 | the router holds the given node registry and key generator |
| `Circuits.RouterImpl.QueryHops` | backend/src/lib.rs:400-428 | the three registry queries, in the source's order, return `SelectHops` of the registry |
| `Circuits.RouterImpl.CreateCircuit` | backend/src/lib.rs:398-449 | returns `CircuitFor` of the registry, the next fresh id and the next key; a failure draws no key and no id, and a success draws four keys and one id |
| `Circuits.RouterImpl.SendRequest` | backend/src/lib.rs:451-462 | returns a fresh request id |
| `Circuits.RouterImpl.ReceiveResponse` | backend/src/lib.rs:464-470 | returns the bytes of "dummy response" |
| `EntryMocks.SanitizeRequest` | backend/src/bin/entry_node.rs:175-179 | succeeds with the request unchanged |
| `EntryMocks.PrepareResponse` | backend/src/bin/entry_node.rs:181-185 | succeeds with the response unchanged |
| `EntryMocks.SanitizerIsTransparent` | backend/src/bin/entry_node.rs:174-185 | sanitising and then preparing gives back every byte string |
| `EntryMocks.MockCircuit` | backend/src/bin/entry_node.rs:128-148 | two routing nodes, `2 + 2` keys from consecutive key pairs, four pairwise distinct node ids, one-hour lifetime |
| `EntryMocks.MockRouter.constructor` | backend/src/bin/entry_node.rs:120-122 | the mock router holds the given key generator |
| `EntryMocks.MockRouter.CreateCircuit` | backend/src/bin/entry_node.rs:127-149 | never fails; returns `MockCircuit`, drawing five ids and four keys |
| `EntryMocks.MockRouter.SendRequest` | backend/src/bin/entry_node.rs:151-158 | returns a fresh request id |
| `EntryMocks.MockRouter.ReceiveResponse` | backend/src/bin/entry_node.rs:160-167 | returns the fixed JSON-RPC reply with id 1 and result "0x123456" |
| `EntryNode.Authorize` | backend/src/lib.rs:511-515 | passes exactly an existing active user; "Invalid API key" for an unknown key, "User subscription is not active" for an inactive user |
| `EntryNode.CreatedUserAuthorized` | backend/src/lib.rs:509-515 | a user just created with a key no one else holds passes the gate with that key |
| `EntryNode.CircuitLookup` | backend/src/lib.rs:536-555 | a circuit stored under the key and expiring strictly after `now` is returned and the cache is unchanged; otherwise the creation outcome is returned and, on success, stored under the key; the returned circuit equals the stored one, and every other key is untouched |
| `EntryNode.CircuitReusedForOneHour` | backend/src/lib.rs:538-554 | a circuit built at `now` is served unchanged at every instant before `now + 3600` and replaced from `now + 3600` on |
| `EntryNode.EntryNodeService.constructor` | backend/src/lib.rs:491-505 | a new service has an empty circuit cache |
| `EntryNode.EntryNodeService.GetOrCreateCircuit` | backend/src/lib.rs:536-555 | result and new cache are `CircuitLookup` with the outcome of `create_circuit`; a live cached circuit draws no id and no key |
| `EntryNode.EntryNodeService.HandleRequest` | backend/src/lib.rs:509-533 | an unknown key or an inactive user fails with the gate's message, before any circuit is looked up or created and before any id or key is drawn; otherwise the cache follows `CircuitLookup`, a creation error is returned, and a success returns the router's reply |
| `ExitNode.ExitResponse` | backend/src/lib.rs:655-669 | fails with "No available RPC providers" exactly when there is no best provider; otherwise echoes the request's id, circuit id and payload, stamped `now` |
| `ExitNode.InitialProvidersServe` | backend/src/lib.rs:655-658 | with the exit binary's two seed providers every request is answered |
| `ExitNode.RefusedAfterLastDeactivated` | backend/src/lib.rs:655-658 | after the only active provider is deactivated every request is refused |
| `ExitNode.ExitNodeService.constructor` | backend/src/lib.rs:629-640 | the service holds the given node id and provider registry |
| `ExitNode.ExitNodeService.HandleRequest` | backend/src/lib.rs:643-672 | returns `ExitResponse` for the registry's best provider; fails exactly when no provider is active |
| `ExitApi.HandleCircuitRequest` | backend/src/bin/exit_node.rs:180-191 | the service's response as the body, or status 500 exactly when no provider is active |
| `Http.Acknowledge` | backend/src/bin/routing_node.rs:128-137 | success exactly on `Ok`, an error message exactly on failure, and that message is the error's |
| `Http.AcknowledgeInjective` | backend/src/bin/routing_node.rs:146-155 | two outcomes with the same acknowledgement are equal |
| `Http.ReplyFor` | backend/src/bin/exit_node.rs:185-188 | a body exactly on `Ok`, holding the value; status 500 on any error |
| `Seqs.FirstIndex` | backend/src/bin/entry_node.rs:238 | the position of the first element satisfying the predicate, None exactly when no element does |
| `Seqs.FindFirst` | backend/src/bin/entry_node.rs:221 | `iter().find`: None exactly when no element satisfies the predicate, otherwise the element at the first satisfying position |
| `Seqs.Filter` | backend/src/bin/entry_node.rs:101-105 | `filter().collect()`: every result satisfies the predicate and is in the input, and every satisfying input element is in the result |
| `Seqs.UpdateFirst` | backend/src/bin/entry_node.rs:238-240 | `iter_mut().find` and a write: only the first satisfying element is replaced by `f` of it; every other element is kept |
| `CoordinatorApi.RegisterNode` | backend/src/bin/coordinator.rs:275-284 | appends the node and acknowledges success |
| `CoordinatorApi.UpdateNodeStatus` | backend/src/bin/coordinator.rs:292-301 | applies `StatusUpdated` and acknowledges success, also for an unknown id |
| `CoordinatorApi.GetAvailableNodes` | backend/src/bin/coordinator.rs:305-313 | the body is `AvailableNodes` of the registry |
| `CoordinatorApi.RegisterProvider` | backend/src/bin/coordinator.rs:316-330 | appends the provider and acknowledges success |
| `CoordinatorApi.UpdateProviderStatus` | backend/src/bin/coordinator.rs:333-350 | applies `ActiveUpdated` and acknowledges success, also for an unknown id |
| `CoordinatorApi.GetActiveProviders` | backend/src/bin/coordinator.rs:353-360 | the body is `ActiveProviders` of the registry |
| `CoordinatorApi.GetBestProvider` | backend/src/bin/coordinator.rs:363-370 | the body is `BestProvider` of the registry, None exactly when no provider is active |
| `Json.Index` | backend/src/bin/entry_node.rs:279 | a non-null result is the field of an object holding it; a present field is returned as is |
| `EntryApi.NonNull` | backend/src/bin/entry_node.rs:280-284 | None exactly for null, otherwise the value |
| `EntryApi.ExtractRpcResponse` | backend/src/bin/entry_node.rs:279-291 | the id is the reply's "id"; result is None exactly when the reply's "result" is null or missing, else that value; the same for error |
| `EntryApi.ToJson` | backend/src/bin/entry_node.rs:59-68 | an `RpcResponse` is written as an object with exactly the fields id, result and error |
| `EntryApi.ExtractAfterToJson` | backend/src/bin/entry_node.rs:280-289 | extraction undoes serialisation exactly when neither result nor error is `Some(null)` |
| `EntryApi.ExtractIsStable` | backend/src/bin/entry_node.rs:278-291 | extracting, writing and extracting again gives the first extraction |
| `EntryApi.ExtractMockReply` | backend/src/bin/entry_node.rs:162-166 | the mock router's reply reaches the client as id 1, result "0x123456" and no error |
| `EntryApi.HandleRpc` | backend/src/bin/entry_node.rs:268-292 | a body exactly when the service answered with a parsable reply, holding its extraction; status 500 otherwise |

## Left out

- `CryptoImpl`'s `encrypt`, `decrypt`, `sign` and `verify` are not modelled. They are thin wrappers over ed25519, ChaCha20-Poly1305 and SHA-256. No modelled operation calls them.
- Entropy.KeyGenerator.GenerateKeypair: key pairs come from a counter and are 32-byte stand-ins, not operating-system randomness; generation never fails (`CryptoImpl::generate_keypair` always returns `Ok`).
- Entropy.UuidSource: `Uuid::new_v4` is a counter, so every drawn id is fresh; random collisions are not modelled.
- `SystemTime::now` is a parameter `now` in whole seconds. `create_circuit` reads the clock twice, once for `created_at` and once for `expires_at`; the model uses one reading, so a circuit lives exactly 3600 s.
- Providers.MaxBySuccessRate: `success_rate` is an `f32` in the source and an integer (basis points) here; the panic of `partial_cmp().unwrap()` on NaN is not modelled.
- `Node.load` (an `f32`) is not part of the model. `RpcProvider.avg_latency` is whole milliseconds.
- The registries' methods return `Result` in the source but always `Ok`. The model's methods return the wrapped value, and the handlers wrap it again.
- Concurrency is not modelled: the `RwLock`s, the `DashMap`, and the window between releasing the read lock and taking the write lock in `get_or_create_circuit`. Every operation runs alone.
- I/O is not modelled: `main`, axum routing, tracing, `health_check` and the configuration records.
- JSON encoding and parsing are not modelled: building `request_json`, `serde_json::from_slice`, and the bytes of the mock reply.
- EntryApi.HandleRpc takes the already parsed reply, or the error of the service or of parsing.
- EntryMocks.MockRouter.ReceiveResponse returns the JSON value instead of its serialised bytes.
- EntryNode.EntryNodeService.HandleRequest: the service is modelled wired to `RouterImpl`, with the user registry and the identity sanitizer of the entry binary. That binary actually passes `MockRouter`, which never fails to build a circuit (`EntryMocks.MockRouter.CreateCircuit`). That composition is not modelled as a second service.
- The service's `crypto` field and `node_id` play no part in any operation.
- `RoutingNodeService::handle_request` and `handle_response` only log and return `Ok`. `CoordinatorService::update_topology` and `check_rpc_health` do the same. Their handlers' mapping is `Http.Acknowledge`. The coordinator's `update_topology` and `check_rpc_health` handlers are not modelled separately.
- Json.Index: JSON numbers are integers here. Floating-point numbers are not modelled.
