/** What each active-signer call does to the table of operating keys. */
module SignerRules {
  import opened Types
  import opened Names
  import Tx = Transactions
  import Nep413

  datatype FreezeState = Unfrozen | SelfFrozen | RecoveryFrozen

  /** The nonce windows are abstracted to the nonces they have accepted since the last key change. */
  datatype SignerEntry = SignerEntry(
    publicKey: PublicKey,
    mpcPublicKey: PublicKey,
    nonces: set<nat>,
    freezeNonces: set<nat>,
    lastSignedAt: nat,
    frozen: FreezeState)

  type Signers = map<AccountId, SignerEntry>

  datatype Authorities = Authorities(marketplace: AccountId, recovery: AccountId)

  const CHAIN_ID: Bytes := [109, 97, 105, 110, 110, 101, 116]

  /** The signed envelope's routing fields; `inWindow` is the nonce library's verdict on its deadline. */
  datatype Envelope = Envelope(chainId: Bytes, signerId: AccountId, nonce: nat, inWindow: bool)

  /** The envelope's proof, as a test on the key it is checked against. */
  type Proof = PublicKey -> bool

  function CommitNonce(used: set<nat>, e: Envelope): Option<set<nat>> {
    if e.nonce in used || !e.inWindow then None else Some(used + {e.nonce})
  }

  function Install(s: Signers, minters: set<AccountId>, caller: AccountId, wallet: AccountId,
                   key: PublicKey, mpcKey: PublicKey): Option<Signers> {
    if caller !in minters || !IsDirectSubaccount(wallet, caller) || wallet in s ||
       !mpcKey.Ed25519? || !mpcKey.Valid() || !key.Ed25519? then None
    else Some(s[wallet := SignerEntry(key, mpcKey, {}, {}, 0, Unfrozen)])
  }

  datatype Swap = Rejected | Voided | Swapped(signers: Signers)

  function SwapOwner(auth: Authorities, s: Signers, caller: AccountId, wallet: AccountId,
                     newKey: PublicKey, expected: Option<PublicKey>): Swap {
    if !newKey.Ed25519? || (caller != auth.marketplace && caller != auth.recovery) || wallet !in s then Rejected
    else
      var e := s[wallet];
      if caller == auth.marketplace && e.frozen != Unfrozen then Rejected
      else if caller != auth.marketplace && e.frozen == Unfrozen then Rejected
      else if expected.Some? && !expected.value.Ed25519? then Rejected
      else if expected.Some? && e.publicKey != expected.value then Voided
      else Swapped(s[wallet := e.(publicKey := newKey, nonces := {}, freezeNonces := {}, frozen := Unfrozen)])
  }

  function SelfFreeze(s: Signers, wallet: AccountId, e: Envelope, proof: Proof): Option<Signers> {
    if e.chainId != CHAIN_ID || e.signerId != wallet || wallet !in s then None
    else
      var entry := s[wallet];
      if !proof(entry.publicKey) then None
      else
        match CommitNonce(entry.freezeNonces, e)
        case None => None
        case Some(used) => Some(s[wallet := entry.(freezeNonces := used, frozen := SelfFrozen)])
  }

  function Freeze(auth: Authorities, s: Signers, caller: AccountId, wallet: AccountId,
                  expected: Option<PublicKey>): Option<Signers> {
    if caller != auth.recovery || wallet !in s then None
    else
      var e := s[wallet];
      if expected.Some? && e.publicKey != expected.value then None
      else if e.frozen == SelfFrozen then Some(s)
      else Some(s[wallet := e.(frozen := RecoveryFrozen)])
  }

  function Unfreeze(auth: Authorities, s: Signers, caller: AccountId, wallet: AccountId): Option<Signers> {
    if caller != auth.recovery || wallet !in s then None
    else
      var e := s[wallet];
      if e.frozen == SelfFrozen then Some(s) else Some(s[wallet := e.(frozen := Unfrozen)])
  }

  /** Returns the new table and the MPC key to sign with. */
  function Authorize(s: Signers, wallet: AccountId, e: Envelope, proof: Proof, now: nat): Option<(Signers, PublicKey)> {
    if wallet !in s then None
    else
      var entry := s[wallet];
      if entry.frozen != Unfrozen || !proof(entry.publicKey) then None
      else
        match CommitNonce(entry.nonces, e)
        case None => None
        case Some(used) =>
          Some((s[wallet := entry.(nonces := used, lastSignedAt := now)], entry.mpcPublicKey))
  }

  /** What a renter asks to have signed. */
  datatype Request =
    | SignTx(receiver: AccountId, actions: seq<Tx.TxAction>, txNonce: nat, blockHash: Bytes)
    | SignMessage(text: Bytes, messageNonce: Bytes, recipient: Bytes, callbackUrl: Option<Bytes>)

  /** Field widths of the source types, and the checks made before the key is consulted. */
  predicate Acceptable(wallet: AccountId, r: Request) {
    match r
    case SignTx(receiver, actions, txNonce, blockHash) =>
      && |wallet| < U32_LIMIT && |receiver| < U32_LIMIT && txNonce < U64_LIMIT && |blockHash| == 32
      && actions != [] && Tx.ValidActions(actions)
    case SignMessage(text, nonce, recipient, url) => Nep413.Message(text, nonce, recipient, url).Valid()
  }

  function BytesToSign(wallet: AccountId, mpcKey: PublicKey, r: Request): Bytes {
    match r
    case SignTx(receiver, actions, txNonce, blockHash) =>
      Tx.EncodeTransaction(Tx.Header(wallet, mpcKey, txNonce, receiver, blockHash), actions)
    case SignMessage(text, nonce, recipient, url) =>
      Nep413.EncodePayload(Nep413.Message(text, nonce, recipient, url))
  }

  /** `submit_signed_tx` and `submit_signed_message`: the new table and the bytes sent to the MPC signer. */
  function SubmitSigned(s: Signers, attached: nat, wallet: AccountId, e: Envelope, r: Request, proof: Proof,
                        now: nat): Option<(Signers, Bytes)> {
    if attached != 1 || e.chainId != CHAIN_ID || e.signerId != wallet || !Acceptable(wallet, r) then None
    else
      match Authorize(s, wallet, e, proof, now)
      case None => None
      case Some((s', mpcKey)) => Some((s', BytesToSign(wallet, mpcKey, r)))
  }

  /** `authority_sign_tx`: the marketplace's sweep, which needs no envelope and uses no nonce. */
  function AuthoritySign(auth: Authorities, s: Signers, caller: AccountId, attached: nat, wallet: AccountId,
                         r: Request, now: nat): Option<(Signers, Bytes)> {
    if attached != 1 || caller != auth.marketplace || !r.SignTx? || !Acceptable(wallet, r) || wallet !in s then None
    else
      var entry := s[wallet];
      if entry.frozen != Unfrozen then None
      else Some((s[wallet := entry.(lastSignedAt := now)], BytesToSign(wallet, entry.mpcPublicKey, r)))
  }
}
