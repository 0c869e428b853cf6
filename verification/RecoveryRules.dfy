/** What each mpc-recovery call does to its accounts, and which receipt it sends. */
module RecoveryRules {
  import opened Types
  import opened Quorum
  import Msg = RecoveryMessages
  import Tx = Transactions

  const NS_PER_SEC: nat := 1_000_000_000
  const MIN_TIMELOCK_SECS: nat := 60

  datatype Target = Native(mpcPublicKey: PublicKey) | Wallet(activeSigner: AccountId, boundOwner: PublicKey)

  datatype Policy = Policy(target: Target, attestationKey: PublicKey, timelockSecs: nat)

  datatype Phase =
    | Idle
    | Requested(newOwner: PublicKey, round: nat, requestedAt: nat)
    | Approving(newOwner: PublicKey, round: nat)
    | Approved(newOwner: PublicKey, round: nat)
    | Resolving(newOwner: PublicKey, round: nat)
  {
    function ResolvingOwner(r: nat): Option<PublicKey> {
      if Resolving? && round == r then Some(newOwner) else None
    }
  }

  datatype Account = Account(policy: Policy, round: nat, phase: Phase)

  datatype Config = Config(
    self: AccountId,
    owner: AccountId,
    signer: AccountId,
    transferAuthority: AccountId,
    watchers: seq<PublicKey>,
    threshold: nat)

  datatype State = State(accounts: map<AccountId, Account>, roundFloor: map<AccountId, nat>) {

    /** The next round for an account, whether or not it has a policy right now. */
    function RoundOf(a: AccountId): nat {
      if a in accounts then accounts[a].round
      else if a in roundFloor then roundFloor[a]
      else 0
    }

    function SetPhase(a: AccountId, p: Phase): State
      requires a in accounts
    {
      this.(accounts := accounts[a := accounts[a].(phase := p)])
    }
  }

  datatype Call =
    | Freeze(expected: PublicKey)
    | SwapOwner(newOwner: PublicKey, expected: PublicKey)
    | Unfreeze
    | SignAddKey(payload: Bytes)

  datatype Dispatch = NoCall | Send(dest: AccountId, call: Call, round: nat)

  datatype Outcome = Panicked | Done(state: State, dispatch: Dispatch)

  /** `proof::verify`: only ed25519 keys verify; the rest is the foreign check. */
  predicate Verifies(verify: Verifier, message: Bytes, signature: Bytes, key: PublicKey) {
    key.Ed25519? && |signature| == 64 && verify(message, signature, key)
  }

  function Checked(verify: Verifier): Verifier {
    (message, signature, key) => Verifies(verify, message, signature, key)
  }

  function SubjectOf(cfg: Config, a: AccountId, newOwner: PublicKey, round: nat): Msg.Subject {
    Msg.Subject(cfg.self, a, newOwner, round)
  }

  // ----- public calls -----

  function InstallPolicy(cfg: Config, s: State, caller: AccountId, a: AccountId, target: Target,
                         attestationKey: PublicKey, timelockSecs: nat): Outcome {
    if caller != cfg.owner || timelockSecs < MIN_TIMELOCK_SECS || timelockSecs >= U32_LIMIT then Panicked
    else if !attestationKey.Ed25519? then Panicked
    else if !(if target.Native? then target.mpcPublicKey.Ed25519? else target.boundOwner.Ed25519?) then Panicked
    else if a in s.accounts && !s.accounts[a].phase.Idle? then Panicked
    else
      var account := Account(Policy(target, attestationKey, timelockSecs), s.RoundOf(a), Idle);
      Done(s.(accounts := s.accounts[a := account]), NoCall)
  }

  function RequestRecovery(cfg: Config, verify: Verifier, s: State, now: nat, a: AccountId, newOwner: PublicKey,
                           round: nat, attestation: Bytes): Outcome {
    if !IsAccountId(a) || !newOwner.Valid() || a !in s.accounts then Panicked
    else
      var entry := s.accounts[a];
      if !entry.phase.Idle? || round != entry.round then Panicked
      else if entry.policy.target.Wallet? && !newOwner.Ed25519? then Panicked
      else if !Verifies(verify, Msg.RequestMessage(SubjectOf(cfg, a, newOwner, round)), attestation, entry.policy.attestationKey)
      then Panicked
      else if round + 1 >= U64_LIMIT then Panicked
      else
        var entry' := entry.(phase := Requested(newOwner, round, now), round := round + 1);
        Done(s.(accounts := s.accounts[a := entry']), NoCall)
  }

  function SubmitVerdict(cfg: Config, verify: Verifier, s: State, now: nat, a: AccountId, silent: bool,
                         signatures: seq<Signature>): Outcome {
    if a !in s.accounts || !s.accounts[a].phase.Requested? then Panicked
    else
      var entry := s.accounts[a];
      var Requested(newOwner, round, requestedAt) := entry.phase;
      var due := requestedAt + entry.policy.timelockSecs * NS_PER_SEC;
      if due >= U64_LIMIT || now < due then Panicked
      else if !HasQuorum(Checked(verify), Msg.VerdictMessage(SubjectOf(cfg, a, newOwner, round), silent), signatures,
                         cfg.watchers, cfg.threshold)
      then Panicked
      else if !silent then Done(s.SetPhase(a, Idle), NoCall)
      else
        match entry.policy.target
        case Wallet(activeSigner, boundOwner) =>
          if !boundOwner.Ed25519? then Panicked
          else Done(s.SetPhase(a, Approving(newOwner, round)), Send(activeSigner, Freeze(boundOwner), round))
        case Native(_) => Done(s.SetPhase(a, Approved(newOwner, round)), NoCall)
  }

  function FinalizeRecovery(cfg: Config, s: State, caller: AccountId, a: AccountId, nonce: nat,
                            blockHash: Bytes): Outcome {
    if a !in s.accounts || !s.accounts[a].phase.Approved? then Panicked
    else
      var entry := s.accounts[a];
      var Approved(newOwner, round) := entry.phase;
      var resolving := s.SetPhase(a, Resolving(newOwner, round));
      match entry.policy.target
      case Native(mpcPublicKey) =>
        if caller != cfg.owner then Panicked
        else
          var payload := Tx.EncodeAddKey(Tx.Header(a, mpcPublicKey, nonce, a, blockHash), newOwner);
          Done(resolving, Send(cfg.signer, SignAddKey(payload), round))
      case Wallet(activeSigner, boundOwner) =>
        if !newOwner.Ed25519? || !boundOwner.Ed25519? then Panicked
        else Done(resolving, Send(activeSigner, SwapOwner(newOwner, boundOwner), round))
  }

  function AbortRecovery(cfg: Config, s: State, caller: AccountId, a: AccountId): Outcome {
    if caller != cfg.owner || a !in s.accounts then Panicked
    else
      match (s.accounts[a].phase, s.accounts[a].policy.target)
      case (Requested(_, _, _), _) => Done(s.SetPhase(a, Idle), NoCall)
      case (Approved(_, _), Native(_)) => Done(s.SetPhase(a, Idle), NoCall)
      case (Approved(newOwner, round), Wallet(activeSigner, _)) =>
        Done(s.SetPhase(a, Resolving(newOwner, round)), Send(activeSigner, Unfreeze, round))
      case _ => Panicked
  }

  function ClaimNativeFinalized(cfg: Config, s: State, caller: AccountId, a: AccountId, round: nat): Outcome {
    if caller != cfg.owner || a !in s.accounts then Panicked
    else
      var entry := s.accounts[a];
      if !entry.policy.target.Native? || !entry.phase.Approved? || entry.phase.round != round then Panicked
      else Done(s.SetPhase(a, Idle), NoCall)
  }

  function OnWalletTransferred(cfg: Config, s: State, caller: AccountId, a: AccountId): Outcome {
    if caller != cfg.transferAuthority then Panicked
    else if a in s.accounts && (s.accounts[a].phase.Idle? || s.accounts[a].phase.Requested?) then
      Done(State(s.accounts - {a}, s.roundFloor[a := s.accounts[a].round]), NoCall)
    else Done(s, NoCall)
  }

  // ----- callbacks: they never panic -----

  function OnFrozen(s: State, a: AccountId, round: nat, result: CallResult): State {
    if a !in s.accounts || !s.accounts[a].phase.Approving? || s.accounts[a].phase.round != round then s
    else if result.Returned? then s.SetPhase(a, Approved(s.accounts[a].phase.newOwner, round))
    else s.SetPhase(a, Idle)
  }

  function OnFinalized(s: State, a: AccountId, round: nat, result: CallResult): State {
    if a !in s.accounts || s.accounts[a].phase.ResolvingOwner(round).None? then s
    else
      var entry := s.accounts[a];
      var newOwner := entry.phase.newOwner;
      match result
      case Returned(true) =>
        var target := if entry.policy.target.Wallet? then entry.policy.target.(boundOwner := newOwner)
                      else entry.policy.target;
        s.(accounts := s.accounts[a := entry.(policy := entry.policy.(target := target), phase := Idle)])
      case Returned(false) => s.SetPhase(a, Idle)
      case Failed => s.SetPhase(a, Approved(newOwner, round))
  }

  /** `settle_resolving`. */
  function SettleResolving(s: State, a: AccountId, round: nat, done: bool): State {
    if a !in s.accounts then s
    else
      match s.accounts[a].phase.ResolvingOwner(round)
      case None => s
      case Some(newOwner) => s.SetPhase(a, if done then Idle else Approved(newOwner, round))
  }

  function OnReply(s: State, a: AccountId, round: nat, call: Call, result: CallResult): State {
    match call
    case Freeze(_) => OnFrozen(s, a, round, result)
    case SwapOwner(_, _) => OnFinalized(s, a, round, result)
    case Unfreeze => SettleResolving(s, a, round, result.Returned?)
    case SignAddKey(_) => SettleResolving(s, a, round, false)
  }
}
