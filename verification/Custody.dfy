/**
 mpc-recovery, active-signer and hos-extension as one message-passing system. The registry,
 which drives the extension, is the environment: it may ask for any transfer at any time.

 A step's label carries everything the contracts do not decide, so a step is a function of the
 state. A call that panics changes nothing. A receipt may fail whatever its target would have
 done; a callback runs once, after its receipt, and completes.
 */
module Custody {
  import opened Types
  import opened Quorum
  import S = SignerRules
  import R = RecoveryRules

  /** Deployed accounts and the foreign signature check. */
  datatype Setup = Setup(recovery: R.Config, activeSigner: AccountId, extension: AccountId, verify: Verifier) {

    function Authorities(): S.Authorities {
      S.Authorities(extension, recovery.self)
    }

    /** DEPLOY.md's wiring: the extension holds both market roles, and nothing plays two parts. */
    predicate Wired() {
      && recovery.transferAuthority == extension
      && extension != recovery.self
      && recovery.signer != activeSigner
      && IsAccountId(recovery.self)
    }
  }

  datatype Mail =
    | RecoveryCall(account: AccountId, round: nat, dest: AccountId, call: R.Call)
    | RecoveryReply(account: AccountId, round: nat, dest: AccountId, call: R.Call, result: CallResult)
    | MarketSwap(wallet: AccountId, newKey: PublicKey, expected: Option<PublicKey>)
    | AfterSwap(wallet: AccountId, result: CallResult)
    | PolicyReset(wallet: AccountId)
  {
    predicate Recovery() {
      RecoveryCall? || RecoveryReply?
    }
  }

  /** History, kept only to state what led to what. */
  datatype Event =
    | RequestAccepted(account: AccountId, newOwner: PublicKey, round: nat, at: nat, timelockSecs: nat,
                      attestationKey: PublicKey, attestation: Bytes)
    | VerdictAccepted(account: AccountId, newOwner: PublicKey, round: nat, silent: bool, at: nat,
                      signatures: seq<Signature>)
    | Froze(wallet: AccountId, expected: PublicKey)
    | Unfroze(wallet: AccountId)
    | SelfFroze(wallet: AccountId)
    | RecoverySwapped(wallet: AccountId, from: PublicKey, to: PublicKey, round: nat)
    | MarketSwapped(wallet: AccountId, from: PublicKey, to: PublicKey)
    | Installed(wallet: AccountId, key: PublicKey)
    | Signed(wallet: AccountId, payload: Bytes)
    | NativeSignRequested(account: AccountId, newOwner: PublicKey, round: nat, payload: Bytes)

  datatype World = World(
    now: nat,
    recovery: R.State,
    signers: S.Signers,
    mail: map<nat, Mail>,
    nextId: nat,
    log: seq<Event>)

  const Start := World(0, R.State(map[], map[]), map[], map[], 0, [])

  /** How a delivered receipt fares: on its own merits, failing for gas or pause, or answering as a contract we do not know. */
  datatype Fate = Works | Fails | Says(value: bool)

  datatype Step =
    | Tick(to: nat)
    | InstallPolicy(caller: AccountId, account: AccountId, target: R.Target, attestationKey: PublicKey, timelockSecs: nat)
    | RequestRecovery(account: AccountId, newOwner: PublicKey, round: nat, attestation: Bytes)
    | SubmitVerdict(account: AccountId, silent: bool, signatures: seq<Signature>)
    | FinalizeRecovery(caller: AccountId, account: AccountId, nonce: nat, blockHash: Bytes)
    | AbortRecovery(caller: AccountId, account: AccountId)
    | ClaimNativeFinalized(caller: AccountId, account: AccountId, round: nat)
    | InstallSigner(minters: set<AccountId>, caller: AccountId, wallet: AccountId, key: PublicKey, mpcKey: PublicKey)
    | SelfFreeze(wallet: AccountId, envelope: S.Envelope, proof: S.Proof)
    | SubmitSigned(attached: nat, wallet: AccountId, envelope: S.Envelope, request: S.Request, proof: S.Proof)
    | AuthoritySign(attached: nat, wallet: AccountId, request: S.Request)
    | ForceTransfer(wallet: AccountId, newKey: PublicKey, expected: Option<PublicKey>)
    | Deliver(id: nat, fate: Fate)

  // ----- one step -----

  function Post(w: World, m: Mail): World {
    w.(mail := w.mail[w.nextId := m], nextId := w.nextId + 1)
  }

  /** Commits a recovery call: new state, history, and the receipt it sends, if any. */
  function Commit(w: World, a: AccountId, o: R.Outcome, events: seq<Event>): World {
    match o
    case Panicked => w
    case Done(s, NoCall) => w.(recovery := s, log := w.log + events)
    case Done(s, Send(dest, call, round)) =>
      Post(w.(recovery := s, log := w.log + events), RecoveryCall(a, round, dest, call))
  }

  function DoRequest(u: Setup, w: World, a: AccountId, newOwner: PublicKey, round: nat, attestation: Bytes): World {
    var o := R.RequestRecovery(u.recovery, u.verify, w.recovery, w.now, a, newOwner, round, attestation);
    if o.Panicked? then w
    else
      var policy := w.recovery.accounts[a].policy;
      Commit(w, a, o, [RequestAccepted(a, newOwner, round, w.now, policy.timelockSecs, policy.attestationKey, attestation)])
  }

  function DoVerdict(u: Setup, w: World, a: AccountId, silent: bool, signatures: seq<Signature>): World {
    var o := R.SubmitVerdict(u.recovery, u.verify, w.recovery, w.now, a, silent, signatures);
    if o.Panicked? then w
    else
      var phase := w.recovery.accounts[a].phase;
      Commit(w, a, o, [VerdictAccepted(a, phase.newOwner, phase.round, silent, w.now, signatures)])
  }

  function DoFinalize(u: Setup, w: World, caller: AccountId, a: AccountId, nonce: nat, blockHash: Bytes): World {
    var o := R.FinalizeRecovery(u.recovery, w.recovery, caller, a, nonce, blockHash);
    if o.Panicked? then w
    else
      var phase := w.recovery.accounts[a].phase;
      var events := if o.dispatch.call.SignAddKey?
                    then [NativeSignRequested(a, phase.newOwner, phase.round, o.dispatch.call.payload)] else [];
      Commit(w, a, o, events)
  }

  function DoSigned(w: World, wallet: AccountId, o: Option<(S.Signers, Bytes)>): World {
    match o
    case None => w
    case Some((s, payload)) => w.(signers := s, log := w.log + [Signed(wallet, payload)])
  }

  /** A recovery receipt running at the active signer: new table, what the callback will see, history. */
  function RunCall(u: Setup, s: S.Signers, a: AccountId, round: nat, call: R.Call): (S.Signers, CallResult, seq<Event>) {
    match call
    case Freeze(expected) =>
      (match S.Freeze(u.Authorities(), s, u.recovery.self, a, Some(expected))
       case None => (s, Failed, [])
       case Some(s') => (s', Returned(true), [Froze(a, expected)]))
    case SwapOwner(newOwner, expected) =>
      (match S.SwapOwner(u.Authorities(), s, u.recovery.self, a, newOwner, Some(expected))
       case Rejected => (s, Failed, [])
       case Voided => (s, Returned(false), [])
       case Swapped(s') => (s', Returned(true), [RecoverySwapped(a, s[a].publicKey, newOwner, round)]))
    case Unfreeze =>
      (match S.Unfreeze(u.Authorities(), s, u.recovery.self, a)
       case None => (s, Failed, [])
       case Some(s') => (s', Returned(true), if s[a].frozen.SelfFrozen? then [] else [Unfroze(a)]))
    case SignAddKey(_) => (s, Failed, [])
  }

  function RunMarketSwap(u: Setup, s: S.Signers, wallet: AccountId, newKey: PublicKey, expected: Option<PublicKey>)
    : (S.Signers, CallResult, seq<Event>)
  {
    match S.SwapOwner(u.Authorities(), s, u.extension, wallet, newKey, expected)
    case Rejected => (s, Failed, [])
    case Voided => (s, Returned(false), [])
    case Swapped(s') => (s', Returned(true), [MarketSwapped(wallet, s[wallet].publicKey, newKey)])
  }

  function DeliverCall(u: Setup, w: World, id: nat, a: AccountId, round: nat, dest: AccountId, call: R.Call, fate: Fate): World {
    if fate.Fails? then w.(mail := w.mail[id := RecoveryReply(a, round, dest, call, Failed)])
    else if dest != u.activeSigner then
      w.(mail := w.mail[id := RecoveryReply(a, round, dest, call, Returned(if fate.Says? then fate.value else true))])
    else
      var (s, result, events) := RunCall(u, w.signers, a, round, call);
      w.(signers := s, mail := w.mail[id := RecoveryReply(a, round, dest, call, result)], log := w.log + events)
  }

  function DeliverMarketSwap(u: Setup, w: World, id: nat, wallet: AccountId, newKey: PublicKey,
                             expected: Option<PublicKey>, fate: Fate): World {
    if fate.Fails? then w.(mail := w.mail[id := AfterSwap(wallet, Failed)])
    else
      var (s, result, events) := RunMarketSwap(u, w.signers, wallet, newKey, expected);
      w.(signers := s, mail := w.mail[id := AfterSwap(wallet, result)], log := w.log + events)
  }

  function DeliverReset(u: Setup, w: World, id: nat, wallet: AccountId, fate: Fate): World {
    var w' := w.(mail := w.mail - {id});
    if fate.Fails? then w' else Commit(w', wallet, R.OnWalletTransferred(u.recovery, w.recovery, u.extension, wallet), [])
  }

  function DoDeliver(u: Setup, w: World, id: nat, fate: Fate): World {
    if id !in w.mail then w
    else
      match w.mail[id]
      case RecoveryCall(a, round, dest, call) => DeliverCall(u, w, id, a, round, dest, call, fate)
      case RecoveryReply(a, round, _, call, result) =>
        w.(recovery := R.OnReply(w.recovery, a, round, call, result), mail := w.mail - {id})
      case MarketSwap(wallet, newKey, expected) => DeliverMarketSwap(u, w, id, wallet, newKey, expected, fate)
      case AfterSwap(wallet, result) =>
        if result == Returned(true) then w.(mail := w.mail[id := PolicyReset(wallet)]) else w.(mail := w.mail - {id})
      case PolicyReset(wallet) => DeliverReset(u, w, id, wallet, fate)
  }

  function Apply(u: Setup, w: World, step: Step): World {
    match step
    case Tick(to) => if w.now <= to then w.(now := to) else w
    case InstallPolicy(caller, a, target, key, timelock) =>
      Commit(w, a, R.InstallPolicy(u.recovery, w.recovery, caller, a, target, key, timelock), [])
    case RequestRecovery(a, newOwner, round, attestation) => DoRequest(u, w, a, newOwner, round, attestation)
    case SubmitVerdict(a, silent, signatures) => DoVerdict(u, w, a, silent, signatures)
    case FinalizeRecovery(caller, a, nonce, blockHash) => DoFinalize(u, w, caller, a, nonce, blockHash)
    case AbortRecovery(caller, a) => Commit(w, a, R.AbortRecovery(u.recovery, w.recovery, caller, a), [])
    case ClaimNativeFinalized(caller, a, round) =>
      Commit(w, a, R.ClaimNativeFinalized(u.recovery, w.recovery, caller, a, round), [])
    case InstallSigner(minters, caller, wallet, key, mpcKey) =>
      (match S.Install(w.signers, minters, caller, wallet, key, mpcKey)
       case None => w
       case Some(s) => w.(signers := s, log := w.log + [Installed(wallet, key)]))
    case SelfFreeze(wallet, envelope, proof) =>
      (match S.SelfFreeze(w.signers, wallet, envelope, proof)
       case None => w
       case Some(s) => w.(signers := s, log := w.log + [SelfFroze(wallet)]))
    case SubmitSigned(attached, wallet, envelope, request, proof) =>
      DoSigned(w, wallet, S.SubmitSigned(w.signers, attached, wallet, envelope, request, proof, w.now))
    case AuthoritySign(attached, wallet, request) =>
      DoSigned(w, wallet, S.AuthoritySign(u.Authorities(), w.signers, u.extension, attached, wallet, request, w.now))
    case ForceTransfer(wallet, newKey, expected) =>
      if newKey.Ed25519? && (expected.Some? ==> expected.value.Ed25519?) then Post(w, MarketSwap(wallet, newKey, expected))
      else w
    case Deliver(id, fate) => DoDeliver(u, w, id, fate)
  }

  /** The state after a run. Every interleaving of calls, receipts and callbacks is one list of steps. */
  function Run(u: Setup, w: World, steps: seq<Step>): World {
    if steps == [] then w else Apply(u, Run(u, w, steps[..|steps| - 1]), steps[|steps| - 1])
  }

  ghost predicate Reachable(u: Setup, w: World) {
    exists steps: seq<Step> :: Run(u, Start, steps) == w
  }
}
