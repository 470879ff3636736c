/** The user registry of the entry binary, `MockUserManager`: a `Vec<User>`
    that `create_user` appends to, searched by API key, by wallet address and
    by id, whose first user with a given id can receive further RPC mappings.
 */
module Users {
  import opened Types
  import opened Seqs
  import Entropy

  /** 16^n. */
  function Pow16(n: nat): (r: nat)
    ensures r > 0
  {
    if n == 0 then 1 else 16 * Pow16(n - 1)
  }

  /** Number of distinct 128-bit UUIDs. */
  const UUID_SPACE: nat := Pow16(32)

  function HexDigit(d: nat): char
    requires d < 16
  {
    "0123456789abcdef"[d]
  }

  /** The low `width` hexadecimal digits of `n`, most significant first. */
  function Hex(n: nat, width: nat): (r: string)
    ensures |r| == width
  {
    if width == 0 then [] else Hex(n / 16, width - 1) + [HexDigit(n % 16)]
  }

  /** `Uuid`'s `Display`: 32 lower-case hexadecimal digits in groups of
      8-4-4-4-12 separated by hyphens. */
  function UuidText(u: Uuid): (r: string)
    ensures |r| == 36
    ensures r[8] == '-' && r[13] == '-' && r[18] == '-' && r[23] == '-'
  {
    var h := Hex(u.value % UUID_SPACE, 32);
    h[..8] + "-" + h[8..12] + "-" + h[12..16] + "-" + h[16..20] + "-" + h[20..]
  }

  /** `format!("api-{}", uuid)`. */
  function ApiKeyFor(u: Uuid): (r: string)
    ensures |r| == 40 && r[..4] == "api-"
    ensures r[4..] == UuidText(u)
  {
    "api-" + UuidText(u)
  }

  lemma HexDigitInjective(a: nat, b: nat)
    requires a < 16 && b < 16 && HexDigit(a) == HexDigit(b)
    ensures a == b
  {
  }

  lemma {:induction false} HexInjective(n: nat, m: nat, width: nat)
    requires n < Pow16(width) && m < Pow16(width)
    requires Hex(n, width) == Hex(m, width)
    ensures n == m
  {
    if width > 0 {
      var hn, hm := Hex(n, width), Hex(m, width);
      assert hn[width - 1] == HexDigit(n % 16) && hm[width - 1] == HexDigit(m % 16);
      HexDigitInjective(n % 16, m % 16);
      assert hn[..width - 1] == Hex(n / 16, width - 1);
      assert hm[..width - 1] == Hex(m / 16, width - 1);
      HexInjective(n / 16, m / 16, width - 1);
    }
  }

  /** The 32 digits of a UUID can be read back from its text. */
  lemma UuidTextDigits(u: Uuid)
    ensures var t := UuidText(u);
            Hex(u.value % UUID_SPACE, 32) == t[..8] + t[9..13] + t[14..18] + t[19..23] + t[24..]
  {
    var h := Hex(u.value % UUID_SPACE, 32);
    var t := UuidText(u);
    assert t[..8] == h[..8];
    assert t[9..13] == h[8..12];
    assert t[14..18] == h[12..16];
    assert t[19..23] == h[16..20];
    assert t[24..] == h[20..];
    assert h == h[..8] + h[8..12] + h[12..16] + h[16..20] + h[20..];
  }

  /** Users created from different UUIDs receive different API keys, so the
      key lookup can tell them apart. */
  lemma ApiKeyInjective(u: Uuid, v: Uuid)
    requires u.value < UUID_SPACE && v.value < UUID_SPACE
    requires ApiKeyFor(u) == ApiKeyFor(v)
    ensures u == v
  {
    assert UuidText(u) == ApiKeyFor(u)[4..] == ApiKeyFor(v)[4..] == UuidText(v);
    UuidTextDigits(u);
    UuidTextDigits(v);
    var n, m := u.value % UUID_SPACE, v.value % UUID_SPACE;
    SmallModulus(u.value, UUID_SPACE);
    SmallModulus(v.value, UUID_SPACE);
    assert Hex(n, 32) == Hex(m, 32);
    HexInjective(n, m, 32);
  }

  /** The user `create_user` makes for a wallet. */
  function NewUser(id: Uuid, walletAddress: string, keyUuid: Uuid): (u: User)
    ensures u.id == id && u.walletAddress == walletAddress
    ensures u.active && u.expiresAt == None && u.rpcMappings == []
    ensures |u.apiKey| == 40 && u.apiKey[..4] == "api-"
  {
    User(id, walletAddress, ApiKeyFor(keyUuid), true, None, [])
  }

  function HasApiKey(apiKey: string): User -> bool
  {
    (u: User) => u.apiKey == apiKey
  }

  function HasWallet(walletAddress: string): User -> bool
  {
    (u: User) => u.walletAddress == walletAddress
  }

  function HasId(id: Uuid): User -> bool
  {
    (u: User) => u.id == id
  }

  function WithMappingAdded(mapping: RpcMapping): User -> User
  {
    (u: User) => u.(rpcMappings := u.rpcMappings + [mapping])
  }

  /** The first user holding the API key, or None. */
  function FindByApiKey(users: seq<User>, apiKey: string): (r: Option<User>)
    ensures r.None? <==> forall i :: 0 <= i < |users| ==> users[i].apiKey != apiKey
    ensures r.Some? ==> exists i :: 0 <= i < |users| && users[i] == r.value && r.value.apiKey == apiKey &&
                                    forall j :: 0 <= j < i ==> users[j].apiKey != apiKey
  {
    FindFirst(users, HasApiKey(apiKey))
  }

  /** The first user with the wallet address, or None. */
  function FindByWallet(users: seq<User>, walletAddress: string): (r: Option<User>)
    ensures r.None? <==> forall i :: 0 <= i < |users| ==> users[i].walletAddress != walletAddress
    ensures r.Some? ==> exists i :: 0 <= i < |users| && users[i] == r.value && r.value.walletAddress == walletAddress &&
                                    forall j :: 0 <= j < i ==> users[j].walletAddress != walletAddress
  {
    FindFirst(users, HasWallet(walletAddress))
  }

  /** The RPC mappings of the first user with the id; empty for an unknown id. */
  function MappingsOf(users: seq<User>, id: Uuid): (r: seq<RpcMapping>)
    ensures (forall i :: 0 <= i < |users| ==> users[i].id != id) ==> r == []
    ensures forall i :: 0 <= i < |users| && users[i].id == id && (forall j :: 0 <= j < i ==> users[j].id != id) ==>
              r == users[i].rpcMappings
  {
    match FindFirst(users, HasId(id))
    case None => []
    case Some(u) => u.rpcMappings
  }

  /** The registry after `add_rpc_mapping(id, mapping)`. */
  function MappingAdded(users: seq<User>, id: Uuid, mapping: RpcMapping): (r: seq<User>)
    ensures |r| == |users|
  {
    UpdateFirst(users, HasId(id), WithMappingAdded(mapping))
  }

  /** A freshly created user is what a key lookup returns for its key,
      unless an earlier user already holds that key. */
  lemma FindCreatedByApiKey(users: seq<User>, user: User)
    ensures FindByApiKey(users + [user], user.apiKey) ==
            if FindByApiKey(users, user.apiKey).Some? then FindByApiKey(users, user.apiKey) else Some(user)
  {
    FindFirstAppend(users, [user], HasApiKey(user.apiKey));
    assert [user][1..] == [];
  }

  /** Likewise for the wallet lookup. */
  lemma FindCreatedByWallet(users: seq<User>, user: User)
    ensures FindByWallet(users + [user], user.walletAddress) ==
            if FindByWallet(users, user.walletAddress).Some? then FindByWallet(users, user.walletAddress) else Some(user)
  {
    FindFirstAppend(users, [user], HasWallet(user.walletAddress));
    assert [user][1..] == [];
  }

  /** `add_rpc_mapping` appends to the list `get_rpc_mappings` returns for
      that user; for an unknown id both stay empty. */
  lemma MappingsAfterAdd(users: seq<User>, id: Uuid, mapping: RpcMapping)
    ensures MappingsOf(MappingAdded(users, id, mapping), id) ==
            if exists i :: 0 <= i < |users| && users[i].id == id then MappingsOf(users, id) + [mapping] else []
  {
    FindAfterUpdateFirst(users, HasId(id), WithMappingAdded(mapping));
  }

  /** `add_rpc_mapping` changes only the first user with the id, and on it
      only the mapping list; other users are untouched. */
  lemma {:induction false} MappingAddedOnlyFirstMatch(users: seq<User>, id: Uuid, mapping: RpcMapping)
    ensures (forall i :: 0 <= i < |users| ==> users[i].id != id) ==> MappingAdded(users, id, mapping) == users
    ensures forall i :: 0 <= i < |users| ==>
      MappingAdded(users, id, mapping)[i] ==
        if users[i].id == id && forall j :: 0 <= j < i ==> users[j].id != id
        then users[i].(rpcMappings := users[i].rpcMappings + [mapping]) else users[i]
  {
    var r := MappingAdded(users, id, mapping);
    var first := FirstIndex(users, HasId(id));
    forall i | 0 <= i < |users|
      ensures r[i] == if users[i].id == id && forall j :: 0 <= j < i ==> users[j].id != id
                      then users[i].(rpcMappings := users[i].rpcMappings + [mapping]) else users[i]
    {
      if users[i].id == id && forall j :: 0 <= j < i ==> users[j].id != id {
        assert HasId(id)(users[i]);
        assert first == Some(i);
      }
    }
  }

  /** `MockUserManager`. Every operation of the source returns `Ok`; the
      methods below return the wrapped value itself. */
  class UserManager {
    var users: seq<User>

    constructor ()
      ensures users == []
    {
      users := [];
    }

    /** Draws the user id, then the UUID rendered into the API key. */
    method CreateUser(walletAddress: string, ids: Entropy.UuidSource) returns (user: User)
      modifies this, ids
      ensures user == NewUser(Uuid(old(ids.issued)), walletAddress, Uuid(old(ids.issued) + 1))
      ensures users == old(users) + [user]
      ensures ids.issued == old(ids.issued) + 2
    {
      var id := ids.NewV4();
      var keyUuid := ids.NewV4();
      user := User(id, walletAddress, ApiKeyFor(keyUuid), true, None, []);
      users := users + [user];
    }

    method GetUserByApiKey(apiKey: string) returns (r: Option<User>)
      ensures r == FindByApiKey(users, apiKey)
      ensures r.Some? ==> r.value in users && r.value.apiKey == apiKey
    {
      r := FindFirst(users, HasApiKey(apiKey));
    }

    method GetUserByWallet(walletAddress: string) returns (r: Option<User>)
      ensures r == FindByWallet(users, walletAddress)
      ensures r.Some? ==> r.value in users && r.value.walletAddress == walletAddress
    {
      r := FindFirst(users, HasWallet(walletAddress));
    }

    method AddRpcMapping(id: Uuid, mapping: RpcMapping)
      modifies this
      ensures users == MappingAdded(old(users), id, mapping)
    {
      var found := FirstIndex(users, HasId(id));
      if found.Some? {
        var i := found.value;
        users := users[i := users[i].(rpcMappings := users[i].rpcMappings + [mapping])];
      }
    }

    method GetRpcMappings(id: Uuid) returns (r: seq<RpcMapping>)
      ensures r == MappingsOf(users, id)
      ensures forall i :: 0 <= i < |users| && users[i].id == id && (forall j :: 0 <= j < i ==> users[j].id != id) ==>
                r == users[i].rpcMappings
    {
      var found := FindFirst(users, HasId(id));
      if found.Some? {
        r := found.value.rpcMappings;
      } else {
        r := [];
      }
    }
  }
}
