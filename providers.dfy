/** The upstream RPC provider registry, `MockRpcManager`, which the
    coordinator and exit binaries define identically: a `Vec<RpcProvider>`
    seeded with two Solana endpoints, appended to, with the `active` flag of
    the first provider with a given id overwritable, queried for the active
    providers and for the active provider with the highest success rate.
 */
module Providers {
  import opened Types
  import opened Seqs
  import Entropy

  /** The search key of `update_provider_status`. */
  function HasId(id: Uuid): RpcProvider -> bool
  {
    (p: RpcProvider) => p.id == id
  }

  predicate IsActive(p: RpcProvider)
  {
    p.active
  }

  /** The write of `update_provider_status`. */
  function WithActive(active: bool): RpcProvider -> RpcProvider
  {
    (p: RpcProvider) => p.(active := active)
  }

  /** Exactly the active providers, in registration order. */
  function ActiveProviders(providers: seq<RpcProvider>): (r: seq<RpcProvider>)
    ensures forall i :: 0 <= i < |r| ==> r[i] in providers && r[i].active
    ensures forall i :: 0 <= i < |providers| && providers[i].active ==> providers[i] in r
  {
    Filter(providers, IsActive)
  }

  /** The registry after `update_provider_status(id, active)`. */
  function ActiveUpdated(providers: seq<RpcProvider>, id: Uuid, active: bool): (r: seq<RpcProvider>)
    ensures |r| == |providers|
  {
    UpdateFirst(providers, HasId(id), WithActive(active))
  }

  /** `max_by` on the success rate: a left fold that replaces the running
      maximum by every element that is not smaller, so among equal rates the
      last one wins. */
  function MaxBySuccessRate(ps: seq<RpcProvider>): (r: RpcProvider)
    requires |ps| > 0
    ensures r in ps
    ensures forall i :: 0 <= i < |ps| ==> ps[i].successRate <= r.successRate
    ensures exists i :: 0 <= i < |ps| && ps[i] == r && forall j :: i < j < |ps| ==> ps[j].successRate < r.successRate
  {
    if |ps| == 1 then ps[0]
    else
      var best := MaxBySuccessRate(ps[..|ps| - 1]);
      var last := ps[|ps| - 1];
      if best.successRate > last.successRate then best else last
  }

  /** `get_best_provider`: None when no provider is active, otherwise the
      active provider with the highest success rate (the latest registered
      one among equals). */
  function BestProvider(providers: seq<RpcProvider>): (r: Option<RpcProvider>)
    ensures r.None? <==> forall i :: 0 <= i < |providers| ==> !providers[i].active
    ensures r.Some? ==> r.value in providers && r.value.active
    ensures r.Some? ==> forall i :: 0 <= i < |providers| && providers[i].active ==>
                          providers[i].successRate <= r.value.successRate
  {
    var active := ActiveProviders(providers);
    if |active| == 0 then None else Some(MaxBySuccessRate(active))
  }

  /** The two endpoints `MockRpcManager::new` starts with. */
  function InitialProviders(first: Uuid, second: Uuid, now: Time): (r: seq<RpcProvider>)
    ensures |r| == 2 && r[0].active && r[1].active
    ensures r[0].id == first && r[1].id == second
    ensures r[0].url == "https://api.mainnet-beta.solana.com" && r[1].url == "https://solana-api.projectserum.com"
    ensures r[0].providerType == "solana" && r[1].providerType == "solana"
    ensures BestProvider(r) == Some(r[0])
  {
    [ RpcProvider(first, "https://api.mainnet-beta.solana.com", "solana", true, 9900, 100, now),
      RpcProvider(second, "https://solana-api.projectserum.com", "solana", true, 9800, 120, now) ]
  }

  /** The k-th active provider is an active provider with exactly k active
      providers registered before it: the list keeps the registration
      order. */
  lemma ActiveInOrder(providers: seq<RpcProvider>, k: nat)
    requires k < |ActiveProviders(providers)|
    ensures exists i :: 0 <= i < |providers| && providers[i] == ActiveProviders(providers)[k] &&
                        providers[i].active && |ActiveProviders(providers[..i])| == k
  {
    FilterAt(providers, IsActive, k);
  }

  /** Registering a provider appends it to the active list exactly when it
      is active. */
  lemma ActiveAfterRegister(providers: seq<RpcProvider>, provider: RpcProvider)
    ensures ActiveProviders(providers + [provider]) ==
            ActiveProviders(providers) + (if provider.active then [provider] else [])
  {
    FilterAppend(providers, [provider], IsActive);
    assert [provider][1..] == [];
  }

  /** `update_provider_status` changes only the first provider with the id,
      and on it only `active`; with an unknown id nothing changes. */
  lemma {:induction false} ActiveUpdatedOnlyFirstMatch(providers: seq<RpcProvider>, id: Uuid, active: bool)
    ensures (forall i :: 0 <= i < |providers| ==> providers[i].id != id) ==> ActiveUpdated(providers, id, active) == providers
    ensures forall i :: 0 <= i < |providers| ==>
      ActiveUpdated(providers, id, active)[i] ==
        if providers[i].id == id && forall j :: 0 <= j < i ==> providers[j].id != id
        then providers[i].(active := active) else providers[i]
  {
    var r := ActiveUpdated(providers, id, active);
    var first := FirstIndex(providers, HasId(id));
    forall i | 0 <= i < |providers|
      ensures r[i] == if providers[i].id == id && forall j :: 0 <= j < i ==> providers[j].id != id
                      then providers[i].(active := active) else providers[i]
    {
      if providers[i].id == id && forall j :: 0 <= j < i ==> providers[j].id != id {
        assert HasId(id)(providers[i]);
        assert first == Some(i);
      }
    }
  }

  /** Deactivating the only active provider leaves no best provider. */
  lemma DeactivateLastActive(providers: seq<RpcProvider>, k: nat)
    requires k < |providers| && providers[k].active
    requires forall i :: 0 <= i < |providers| && i != k ==> !providers[i].active
    requires forall j :: 0 <= j < k ==> providers[j].id != providers[k].id
    ensures BestProvider(ActiveUpdated(providers, providers[k].id, false)) == None
  {
    ActiveUpdatedOnlyFirstMatch(providers, providers[k].id, false);
  }

  /** `MockRpcManager`. Every operation of the source returns `Ok`; the
      methods below return the wrapped value itself. */
  class RpcManager {
    var providers: seq<RpcProvider>

    /** `MockRpcManager::new`, drawing the two ids from `ids`. */
    constructor (ids: Entropy.UuidSource, now: Time)
      modifies ids
      ensures providers == InitialProviders(Uuid(old(ids.issued)), Uuid(old(ids.issued) + 1), now)
      ensures ids.issued == old(ids.issued) + 2
    {
      var first := ids.NewV4();
      var second := ids.NewV4();
      providers := InitialProviders(first, second, now);
    }

    method RegisterProvider(provider: RpcProvider)
      modifies this
      ensures providers == old(providers) + [provider]
    {
      providers := providers + [provider];
    }

    method UpdateProviderStatus(id: Uuid, active: bool)
      modifies this
      ensures providers == ActiveUpdated(old(providers), id, active)
    {
      var found := FirstIndex(providers, HasId(id));
      if found.Some? {
        var i := found.value;
        providers := providers[i := providers[i].(active := active)];
      }
    }

    method GetActiveProviders() returns (r: seq<RpcProvider>)
      ensures r == ActiveProviders(providers)
      ensures forall i :: 0 <= i < |r| ==> r[i].active
    {
      r := Filter(providers, IsActive);
    }

    method GetBestProvider() returns (r: Option<RpcProvider>)
      ensures r == BestProvider(providers)
      ensures r.None? <==> forall i :: 0 <= i < |providers| ==> !providers[i].active
    {
      var active := Filter(providers, IsActive);
      if |active| == 0 {
        return None;
      }
      r := Some(MaxBySuccessRate(active));
    }
  }
}
