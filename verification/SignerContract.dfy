/** The active-signer contract: its table is updated in place and a panic leaves it as it was. */
module SignerContract {
  import opened Types
  import Rules = SignerRules
  import Names

  class ActiveSigner {
    const authorities: Rules.Authorities
    var minters: set<AccountId>
    var signers: Rules.Signers

    constructor (marketplace: AccountId, recovery: AccountId)
      ensures authorities == Rules.Authorities(marketplace, recovery)
      ensures minters == {} && signers == map[]
    {
      authorities := Rules.Authorities(marketplace, recovery);
      minters := {};
      signers := map[];
    }

    method InstallSigner(caller: AccountId, wallet: AccountId, key: PublicKey, mpcKey: PublicKey) returns (ok: bool)
      modifies this`signers
      ensures match Rules.Install(old(signers), minters, caller, wallet, key, mpcKey)
              case None => !ok && signers == old(signers)
              case Some(s) => ok && signers == s
    {
      if caller !in minters || !Names.IsDirectSubaccount(wallet, caller) { return false; }
      if wallet in signers { return false; }
      if !mpcKey.Ed25519? || !mpcKey.Valid() || !key.Ed25519? { return false; }
      signers := signers[wallet := Rules.SignerEntry(key, mpcKey, {}, {}, 0, Rules.Unfrozen)];
      return true;
    }

    method SwapOwner(caller: AccountId, wallet: AccountId, newKey: PublicKey, expected: Option<PublicKey>)
      returns (r: CallResult)
      modifies this`signers
      ensures match Rules.SwapOwner(authorities, old(signers), caller, wallet, newKey, expected)
              case Rejected => r == Failed && signers == old(signers)
              case Voided => r == Returned(false) && signers == old(signers)
              case Swapped(s) => r == Returned(true) && signers == s
    {
      if !newKey.Ed25519? { return Failed; }
      var marketplace := caller == authorities.marketplace;
      var recovery := caller == authorities.recovery;
      if !marketplace && !recovery { return Failed; }
      if wallet !in signers { return Failed; }
      var entry := signers[wallet];
      if marketplace {
        if entry.frozen != Rules.Unfrozen { return Failed; }
      } else {
        if entry.frozen == Rules.Unfrozen { return Failed; }
      }
      if expected.Some? {
        if !expected.value.Ed25519? { return Failed; }
        if entry.publicKey != expected.value { return Returned(false); }
      }
      entry := entry.(frozen := Rules.Unfrozen);
      entry := entry.(publicKey := newKey);
      entry := entry.(nonces := {});
      entry := entry.(freezeNonces := {});
      signers := signers[wallet := entry];
      return Returned(true);
    }

    method SelfFreeze(wallet: AccountId, e: Rules.Envelope, proof: Rules.Proof) returns (ok: bool)
      modifies this`signers
      ensures match Rules.SelfFreeze(old(signers), wallet, e, proof)
              case None => !ok && signers == old(signers)
              case Some(s) => ok && signers == s
    {
      if e.chainId != Rules.CHAIN_ID || e.signerId != wallet || wallet !in signers { return false; }
      var entry := signers[wallet];
      if !proof(entry.publicKey) { return false; }
      var committed := Rules.CommitNonce(entry.freezeNonces, e);
      if committed.None? { return false; }
      entry := entry.(freezeNonces := committed.value);
      entry := entry.(frozen := Rules.SelfFrozen);
      signers := signers[wallet := entry];
      return true;
    }

    method Freeze(caller: AccountId, wallet: AccountId, expected: Option<PublicKey>) returns (ok: bool)
      modifies this`signers
      ensures match Rules.Freeze(authorities, old(signers), caller, wallet, expected)
              case None => !ok && signers == old(signers)
              case Some(s) => ok && signers == s
    {
      if caller != authorities.recovery || wallet !in signers { return false; }
      var entry := signers[wallet];
      if expected.Some? && entry.publicKey != expected.value { return false; }
      if entry.frozen != Rules.SelfFrozen {
        signers := signers[wallet := entry.(frozen := Rules.RecoveryFrozen)];
      }
      return true;
    }

    method Unfreeze(caller: AccountId, wallet: AccountId) returns (ok: bool)
      modifies this`signers
      ensures match Rules.Unfreeze(authorities, old(signers), caller, wallet)
              case None => !ok && signers == old(signers)
              case Some(s) => ok && signers == s
    {
      if caller != authorities.recovery || wallet !in signers { return false; }
      var entry := signers[wallet];
      if entry.frozen == Rules.SelfFrozen { return true; }
      signers := signers[wallet := entry.(frozen := Rules.Unfrozen)];
      return true;
    }

    method Authorize(wallet: AccountId, e: Rules.Envelope, proof: Rules.Proof, now: nat) returns (mpcKey: Option<PublicKey>)
      modifies this`signers
      ensures match Rules.Authorize(old(signers), wallet, e, proof, now)
              case None => mpcKey == None && signers == old(signers)
              case Some((s, key)) => mpcKey == Some(key) && signers == s
    {
      if wallet !in signers { return None; }
      var entry := signers[wallet];
      if entry.frozen != Rules.Unfrozen || !proof(entry.publicKey) { return None; }
      var committed := Rules.CommitNonce(entry.nonces, e);
      if committed.None? { return None; }
      entry := entry.(nonces := committed.value);
      entry := entry.(lastSignedAt := now);
      signers := signers[wallet := entry];
      return Some(entry.mpcPublicKey);
    }

    method SubmitSigned(attached: nat, wallet: AccountId, e: Rules.Envelope, r: Rules.Request, proof: Rules.Proof, now: nat)
      returns (bytes: Option<Bytes>)
      modifies this`signers
      ensures match Rules.SubmitSigned(old(signers), attached, wallet, e, r, proof, now)
              case None => bytes == None && signers == old(signers)
              case Some((s, b)) => bytes == Some(b) && signers == s
    {
      if attached != 1 || e.chainId != Rules.CHAIN_ID || e.signerId != wallet || !Rules.Acceptable(wallet, r) {
        return None;
      }
      var mpcKey := Authorize(wallet, e, proof, now);
      if mpcKey.None? { return None; }
      return Some(Rules.BytesToSign(wallet, mpcKey.value, r));
    }

    method AuthoritySign(caller: AccountId, attached: nat, wallet: AccountId, r: Rules.Request, now: nat)
      returns (bytes: Option<Bytes>)
      modifies this`signers
      ensures match Rules.AuthoritySign(authorities, old(signers), caller, attached, wallet, r, now)
              case None => bytes == None && signers == old(signers)
              case Some((s, b)) => bytes == Some(b) && signers == s
    {
      if attached != 1 || caller != authorities.marketplace { return None; }
      if !r.SignTx? || !Rules.Acceptable(wallet, r) || wallet !in signers { return None; }
      var entry := signers[wallet];
      if entry.frozen != Rules.Unfrozen { return None; }
      entry := entry.(lastSignedAt := now);
      signers := signers[wallet := entry];
      return Some(Rules.BytesToSign(wallet, entry.mpcPublicKey, r));
    }
  }
}
