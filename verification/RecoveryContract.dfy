/** The mpc-recovery contract: its account entries are updated in place. */
module RecoveryContract {
  import opened Types
  import Rules = RecoveryRules
  import Q = Quorum
  import Msg = RecoveryMessages
  import Tx = Transactions

  /** A call either panics and changes nothing, or reaches the specified state and sends the specified receipt. */
  ghost predicate Follows(before: Rules.State, o: Rules.Outcome, after: Rules.State, sent: Option<Rules.Dispatch>) {
    match o
    case Panicked => sent == None && after == before
    case Done(s, d) => sent == Some(d) && after == s
  }

  class MpcRecovery {
    const cfg: Rules.Config
    var accounts: map<AccountId, Rules.Account>
    var roundFloor: map<AccountId, nat>

    ghost function View(): Rules.State
      reads this
    {
      Rules.State(accounts, roundFloor)
    }

    /** The threshold is between 1 and the number of watchers, who are distinct ed25519 keys. */
    constructor (self: AccountId, owner: AccountId, signer: AccountId, transferAuthority: AccountId,
                 watchers: seq<PublicKey>, threshold: nat)
      requires 0 < threshold <= |watchers|
      requires forall i :: 0 <= i < |watchers| ==> watchers[i].Ed25519?
      requires forall i, j :: 0 <= i < j < |watchers| ==> watchers[i] != watchers[j]
      ensures cfg == Rules.Config(self, owner, signer, transferAuthority, watchers, threshold)
      ensures View() == Rules.State(map[], map[])
    {
      cfg := Rules.Config(self, owner, signer, transferAuthority, watchers, threshold);
      accounts := map[];
      roundFloor := map[];
    }

    method InstallPolicy(caller: AccountId, a: AccountId, target: Rules.Target, attestationKey: PublicKey,
                         timelockSecs: nat) returns (sent: Option<Rules.Dispatch>)
      modifies this
      ensures Follows(old(View()), Rules.InstallPolicy(cfg, old(View()), caller, a, target, attestationKey, timelockSecs), View(), sent)
    {
      if caller != cfg.owner { return None; }
      if timelockSecs < Rules.MIN_TIMELOCK_SECS || timelockSecs >= U32_LIMIT { return None; }
      if !attestationKey.Ed25519? { return None; }
      match target {
        case Native(mpcPublicKey) => if !mpcPublicKey.Ed25519? { return None; }
        case Wallet(_, boundOwner) => if !boundOwner.Ed25519? { return None; }
      }
      var round := 0;
      if a in accounts {
        if !accounts[a].phase.Idle? { return None; }
        round := accounts[a].round;
      } else if a in roundFloor {
        round := roundFloor[a];
      }
      accounts := accounts[a := Rules.Account(Rules.Policy(target, attestationKey, timelockSecs), round, Rules.Idle)];
      return Some(Rules.NoCall);
    }

    method RequestRecovery(verify: Q.Verifier, now: nat, a: AccountId, newOwner: PublicKey, round: nat,
                           attestation: Bytes) returns (sent: Option<Rules.Dispatch>)
      modifies this
      ensures Follows(old(View()), Rules.RequestRecovery(cfg, verify, old(View()), now, a, newOwner, round, attestation), View(), sent)
    {
      if !IsAccountId(a) || !newOwner.Valid() || a !in accounts { return None; }
      var entry := accounts[a];
      if !entry.phase.Idle? || round != entry.round { return None; }
      if entry.policy.target.Wallet? && !newOwner.Ed25519? { return None; }
      var message := Msg.RequestMessage(Rules.SubjectOf(cfg, a, newOwner, round));
      if !Rules.Verifies(verify, message, attestation, entry.policy.attestationKey) { return None; }
      if round + 1 >= U64_LIMIT { return None; }
      entry := entry.(phase := Rules.Requested(newOwner, round, now));
      entry := entry.(round := entry.round + 1);
      accounts := accounts[a := entry];
      return Some(Rules.NoCall);
    }

    method SubmitVerdict(verify: Q.Verifier, now: nat, a: AccountId, silent: bool, signatures: seq<Q.Signature>)
      returns (sent: Option<Rules.Dispatch>)
      requires |signatures| < U32_LIMIT
      modifies this
      ensures Follows(old(View()), Rules.SubmitVerdict(cfg, verify, old(View()), now, a, silent, signatures), View(), sent)
    {
      if a !in accounts || !accounts[a].phase.Requested? { return None; }
      var entry := accounts[a];
      var Requested(newOwner, round, requestedAt) := entry.phase;
      var due := requestedAt + entry.policy.timelockSecs * Rules.NS_PER_SEC;
      if due >= U64_LIMIT || now < due { return None; }
      var message := Msg.BuildVerdictMessage(cfg.self, a, newOwner, round, silent);
      var quorum := Q.VerifyQuorum(Rules.Checked(verify), message, signatures, cfg.watchers, cfg.threshold);
      if !quorum { return None; }
      if !silent {
        accounts := accounts[a := entry.(phase := Rules.Idle)];
        return Some(Rules.NoCall);
      }
      match entry.policy.target {
        case Wallet(activeSigner, boundOwner) =>
          if !boundOwner.Ed25519? { return None; }
          accounts := accounts[a := entry.(phase := Rules.Approving(newOwner, round))];
          return Some(Rules.Send(activeSigner, Rules.Freeze(boundOwner), round));
        case Native(_) =>
          accounts := accounts[a := entry.(phase := Rules.Approved(newOwner, round))];
          return Some(Rules.NoCall);
      }
    }

    method FinalizeRecovery(caller: AccountId, a: AccountId, nonce: nat, blockHash: Bytes)
      returns (sent: Option<Rules.Dispatch>)
      modifies this
      ensures Follows(old(View()), Rules.FinalizeRecovery(cfg, old(View()), caller, a, nonce, blockHash), View(), sent)
    {
      if a !in accounts || !accounts[a].phase.Approved? { return None; }
      var entry := accounts[a];
      var Approved(newOwner, round) := entry.phase;
      match entry.policy.target {
        case Native(mpcPublicKey) =>
          if caller != cfg.owner { return None; }
          accounts := accounts[a := entry.(phase := Rules.Resolving(newOwner, round))];
          var payload := Tx.AddKeyTx(a, mpcPublicKey, nonce, blockHash, newOwner);
          return Some(Rules.Send(cfg.signer, Rules.SignAddKey(payload), round));
        case Wallet(activeSigner, boundOwner) =>
          if !newOwner.Ed25519? || !boundOwner.Ed25519? { return None; }
          accounts := accounts[a := entry.(phase := Rules.Resolving(newOwner, round))];
          return Some(Rules.Send(activeSigner, Rules.SwapOwner(newOwner, boundOwner), round));
      }
    }

    method AbortRecovery(caller: AccountId, a: AccountId) returns (sent: Option<Rules.Dispatch>)
      modifies this
      ensures Follows(old(View()), Rules.AbortRecovery(cfg, old(View()), caller, a), View(), sent)
    {
      if caller != cfg.owner || a !in accounts { return None; }
      var entry := accounts[a];
      if entry.phase.Requested? || (entry.phase.Approved? && entry.policy.target.Native?) {
        accounts := accounts[a := entry.(phase := Rules.Idle)];
        return Some(Rules.NoCall);
      }
      if entry.phase.Approved? {
        var round := entry.phase.round;
        accounts := accounts[a := entry.(phase := Rules.Resolving(entry.phase.newOwner, round))];
        return Some(Rules.Send(entry.policy.target.activeSigner, Rules.Unfreeze, round));
      }
      return None;
    }

    method ClaimNativeFinalized(caller: AccountId, a: AccountId, round: nat) returns (sent: Option<Rules.Dispatch>)
      modifies this
      ensures Follows(old(View()), Rules.ClaimNativeFinalized(cfg, old(View()), caller, a, round), View(), sent)
    {
      if caller != cfg.owner || a !in accounts { return None; }
      var entry := accounts[a];
      if !entry.policy.target.Native? || !entry.phase.Approved? || entry.phase.round != round { return None; }
      accounts := accounts[a := entry.(phase := Rules.Idle)];
      return Some(Rules.NoCall);
    }

    method OnWalletTransferred(caller: AccountId, a: AccountId) returns (sent: Option<Rules.Dispatch>)
      modifies this
      ensures Follows(old(View()), Rules.OnWalletTransferred(cfg, old(View()), caller, a), View(), sent)
    {
      if caller != cfg.transferAuthority { return None; }
      if a in accounts && (accounts[a].phase.Idle? || accounts[a].phase.Requested?) {
        roundFloor := roundFloor[a := accounts[a].round];
        accounts := accounts - {a};
      }
      return Some(Rules.NoCall);
    }

    method OnFrozen(a: AccountId, round: nat, result: CallResult)
      modifies this
      ensures View() == Rules.OnFrozen(old(View()), a, round, result)
    {
      if a !in accounts { return; }
      var entry := accounts[a];
      if !entry.phase.Approving? || entry.phase.round != round { return; }
      if result.Returned? {
        accounts := accounts[a := entry.(phase := Rules.Approved(entry.phase.newOwner, round))];
      } else {
        accounts := accounts[a := entry.(phase := Rules.Idle)];
      }
    }

    method OnFinalized(a: AccountId, round: nat, result: CallResult)
      modifies this
      ensures View() == Rules.OnFinalized(old(View()), a, round, result)
    {
      if a !in accounts { return; }
      var entry := accounts[a];
      if !entry.phase.Resolving? || entry.phase.round != round { return; }
      var newOwner := entry.phase.newOwner;
      match result {
        case Returned(true) =>
          if entry.policy.target.Wallet? {
            entry := entry.(policy := entry.policy.(target := entry.policy.target.(boundOwner := newOwner)));
          }
          accounts := accounts[a := entry.(phase := Rules.Idle)];
        case Returned(false) =>
          accounts := accounts[a := entry.(phase := Rules.Idle)];
        case Failed =>
          accounts := accounts[a := entry.(phase := Rules.Approved(newOwner, round))];
      }
    }

    method SettleResolving(a: AccountId, round: nat, done: bool) returns (settled: bool)
      modifies this
      ensures View() == Rules.SettleResolving(old(View()), a, round, done)
      ensures settled <==> a in old(accounts) && old(accounts)[a].phase.ResolvingOwner(round).Some?
    {
      if a !in accounts { return false; }
      var entry := accounts[a];
      match entry.phase.ResolvingOwner(round) {
        case None => return false;
        case Some(newOwner) =>
          accounts := accounts[a := entry.(phase := if done then Rules.Idle else Rules.Approved(newOwner, round))];
          return true;
      }
    }
  }
}
