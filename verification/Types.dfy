/** Values shared by every contract: bytes, account ids, public keys and call results. */
module Types {

  datatype Option<+T> = None | Some(value: T)

  type byte = x: int | 0 <= x < 256

  type Bytes = seq<byte>

  /** Account ids and names are handled as their UTF-8 bytes. */
  type AccountId = Bytes

  /** The length bound every account id the runtime hands to a contract satisfies. */
  predicate IsAccountId(a: AccountId) {
    2 <= |a| <= 64
  }

  /** A key is its curve and its raw bytes; `Encode` puts the curve tag in front. */
  datatype PublicKey = Ed25519(raw: Bytes) | Secp256k1(raw: Bytes) {

    predicate Valid() {
      |raw| == if Ed25519? then 32 else 64
    }
  }

  /** What a callback sees of the receipt it waited for. */
  datatype CallResult = Failed | Returned(value: bool)

  const U32_LIMIT: nat := 0x1_0000_0000
  const U64_LIMIT: nat := 0x1_0000_0000_0000_0000
  const U128_LIMIT: nat := 0x1_0000_0000_0000_0000_0000_0000_0000_0000

  function SatAdd(a: nat, b: nat, limit: nat): (r: nat)
    requires 0 < limit
    ensures a + b < limit ==> r == a + b
    ensures r < limit
  {
    if a + b < limit then a + b else limit - 1
  }

  function SatSub(a: nat, b: nat): (r: nat)
    ensures b <= a ==> r + b == a
    ensures a < b ==> r == 0
  {
    if b <= a then a - b else 0
  }

  function Max(a: nat, b: nat): nat {
    if a < b then b else a
  }
}
