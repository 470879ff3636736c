/** The program's sources of fresh values, made deterministic so that the
    rest of the model can say which value each call receives:
    `Uuid::new_v4` becomes a counter, and `CryptoImpl::generate_keypair`
    (an Ed25519 key pair drawn from the operating system's generator,
    lib.rs) becomes a counter-indexed key pair of the same 32-byte size.
 */
module Entropy {
  import opened Types

  /** Stands in for `Uuid::new_v4`: every call returns an identifier that
      no earlier call returned. */
  class UuidSource {
    var issued: nat

    constructor ()
      ensures issued == 0
    {
      issued := 0;
    }

    method NewV4() returns (u: Uuid)
      modifies this
      ensures u == Uuid(old(issued))
      ensures issued == old(issued) + 1
    {
      u := Uuid(issued);
      issued := issued + 1;
    }
  }

  /** Size in bytes of an Ed25519 public or secret key. */
  const KEY_LENGTH: nat := 32

  /** 256^n. */
  function Pow256(n: nat): (r: nat)
    ensures r > 0
  {
    if n == 0 then 1 else 256 * Pow256(n - 1)
  }

  /** `n` as `width` big-endian bytes (its value modulo 256^width). */
  function BigEndian(n: nat, width: nat): (r: seq<Byte>)
    ensures |r| == width
  {
    seq(width, i requires 0 <= i < width => ((n / Pow256(width - 1 - i)) % 256) as Byte)
  }

  datatype KeyPair = KeyPair(publicKey: CryptoKey, secretKey: CryptoKey)

  /** The key pair handed out by the `serial`-th call of the generator. */
  function KeyPairAt(serial: nat): (r: KeyPair)
    ensures |r.publicKey.bytes| == KEY_LENGTH && |r.secretKey.bytes| == KEY_LENGTH
  {
    KeyPair(CryptoKey(BigEndian(2 * serial, KEY_LENGTH)), CryptoKey(BigEndian(2 * serial + 1, KEY_LENGTH)))
  }

  /** The public halves of `count` consecutive key pairs from `start` on. */
  function PublicKeysFrom(start: nat, count: nat): (r: seq<CryptoKey>)
    ensures |r| == count
    ensures forall i :: 0 <= i < count ==> r[i] == KeyPairAt(start + i).publicKey
  {
    if count == 0 then [] else PublicKeysFrom(start, count - 1) + [KeyPairAt(start + count - 1).publicKey]
  }

  /** Drawing one more key extends the sequence by that key's public half. */
  lemma PublicKeysFromNext(start: nat, count: nat)
    ensures PublicKeysFrom(start, count + 1) == PublicKeysFrom(start, count) + [KeyPairAt(start + count).publicKey]
  {
  }

  /** Stands in for `CryptoImpl::generate_keypair`, which never fails. */
  class KeyGenerator {
    var drawn: nat

    constructor ()
      ensures drawn == 0
    {
      drawn := 0;
    }

    method GenerateKeypair() returns (pair: KeyPair)
      modifies this
      ensures pair == KeyPairAt(old(drawn))
      ensures drawn == old(drawn) + 1
    {
      pair := KeyPairAt(drawn);
      drawn := drawn + 1;
    }

    /** The key loop of `create_circuit` (lib.rs and the entry binary's
        `MockRouter`): the public halves of `count` freshly generated key
        pairs, one per hop. */
    method GeneratePublicKeys(count: nat) returns (keys: seq<CryptoKey>)
      modifies this
      ensures keys == PublicKeysFrom(old(drawn), count)
      ensures drawn == old(drawn) + count
    {
      ghost var firstKey := drawn;
      keys := [];
      var hop := 0;
      while hop < count
        invariant 0 <= hop <= count
        invariant drawn == firstKey + hop
        invariant keys == PublicKeysFrom(firstKey, hop)
      {
        var pair := GenerateKeypair();
        keys := keys + [pair.publicKey];
        PublicKeysFromNext(firstKey, hop);
        hop := hop + 1;
      }
    }
  }
}
