/**
 Recovery goes through: whatever state the system is in, an idle policy whose wallet still has the
 bound key can be carried to a key change by its attestation, the wait and the watchers' signatures.
 */
module RecoveryProgress {
  import opened Types
  import opened Custody
  import opened CustodyInvariant
  import Q = Quorum
  import S = SignerRules
  import R = RecoveryRules
  import Msg = RecoveryMessages

  /** What the parties have to bring. */
  datatype Case = Case(account: AccountId, newOwner: PublicKey, round: nat, attestation: Bytes, signatures: seq<Q.Signature>)

  /** The wallet is under its policy, nothing is under way, and the key is the bound one; a self-freeze does not matter. */
  predicate Recoverable(u: Setup, w: World, a: AccountId) {
    && Managed(u, w, a) && IsAccountId(a)
    && w.recovery.accounts[a].phase.Idle?
    && w.recovery.accounts[a].policy.target.boundOwner.Ed25519?
    && a in w.signers && w.signers[a].publicKey == w.recovery.accounts[a].policy.target.boundOwner
  }

  predicate Attested(u: Setup, w: World, c: Case)
    requires c.account in w.recovery.accounts
  {
    var entry := w.recovery.accounts[c.account];
    && c.newOwner.Ed25519? && c.newOwner.Valid() && c.round == entry.round && c.round + 1 < U64_LIMIT
    && R.Verifies(u.verify, Msg.RequestMessage(R.SubjectOf(u.recovery, c.account, c.newOwner, c.round)), c.attestation,
                  entry.policy.attestationKey)
  }

  predicate Witnessed(u: Setup, c: Case) {
    Q.HasQuorum(R.Checked(u.verify), Msg.VerdictMessage(R.SubjectOf(u.recovery, c.account, c.newOwner, c.round), true),
                c.signatures, u.recovery.watchers, u.recovery.threshold)
  }

  function Due(w: World, a: AccountId): nat
    requires a in w.recovery.accounts
  {
    w.now + w.recovery.accounts[a].policy.timelockSecs * R.NS_PER_SEC
  }

  // ----- one leg at a time -----

  /** Asked and waited for. */
  predicate Waited(u: Setup, w: World, c: Case) {
    && Managed(u, w, c.account) && c.account in w.signers
    && var entry := w.recovery.accounts[c.account];
    && entry.phase.Requested? && entry.phase.newOwner == c.newOwner && entry.phase.round == c.round
    && entry.policy.target.boundOwner.Ed25519? && w.signers[c.account].publicKey == entry.policy.target.boundOwner
    && entry.phase.requestedAt + entry.policy.timelockSecs * R.NS_PER_SEC <= w.now < U64_LIMIT
  }

  /** Ready for `finalize_recovery`. */
  predicate Ready(u: Setup, w: World, c: Case) {
    && Managed(u, w, c.account) && c.account in w.signers
    && var entry := w.recovery.accounts[c.account];
    && entry.phase == R.Approved(c.newOwner, c.round)
    && entry.policy.target.boundOwner.Ed25519? && w.signers[c.account].publicKey == entry.policy.target.boundOwner
    && w.signers[c.account].frozen != S.Unfrozen
  }

  predicate Recovered(u: Setup, w: World, c: Case) {
    && Recoverable(u, w, c.account)
    && w.signers[c.account].publicKey == c.newOwner && w.signers[c.account].frozen == S.Unfrozen
  }

  function Asking(w: World, c: Case): seq<Step>
    requires c.account in w.recovery.accounts
  {
    [RequestRecovery(c.account, c.newOwner, c.round, c.attestation), Tick(Due(w, c.account))]
  }

  /** The verdict sends the freeze; the freeze works; the callback approves. */
  function Approving(id: nat, c: Case): seq<Step> {
    [SubmitVerdict(c.account, true, c.signatures), Deliver(id, Works), Deliver(id, Works)]
  }

  function Finalizing(u: Setup, id: nat, c: Case): seq<Step> {
    [FinalizeRecovery(u.recovery.owner, c.account, 0, []), Deliver(id, Works), Deliver(id, Works)]
  }

  lemma RunTwo(u: Setup, w: World, x: Step, y: Step)
    ensures Run(u, w, [x, y]) == Apply(u, Apply(u, w, x), y)
  {
    assert [x, y][..1] == [x] && [x][..0] == [];
    assert Run(u, w, [x]) == Apply(u, w, x);
  }

  lemma RunThree(u: Setup, w: World, x: Step, y: Step, z: Step)
    ensures Run(u, w, [x, y, z]) == Apply(u, Apply(u, Apply(u, w, x), y), z)
  {
    assert [x, y, z][..2] == [x, y];
    RunTwo(u, w, x, y);
  }

  lemma AskingWaits(u: Setup, w: World, c: Case)
    requires Recoverable(u, w, c.account) && Attested(u, w, c) && Due(w, c.account) < U64_LIMIT
    ensures var w' := Run(u, w, Asking(w, c)); Waited(u, w', c) && w'.nextId == w.nextId
  {
    RunTwo(u, w, RequestRecovery(c.account, c.newOwner, c.round, c.attestation), Tick(Due(w, c.account)));
  }

  lemma VerdictSent(u: Setup, w: World, c: Case)
    requires Waited(u, w, c) && Witnessed(u, c)
    ensures var w', a := Apply(u, w, SubmitVerdict(c.account, true, c.signatures)), c.account;
      && w'.signers == w.signers && w'.nextId == w.nextId + 1
      && w'.mail == w.mail[w.nextId := RecoveryCall(a, c.round, u.activeSigner, R.Freeze(w.recovery.accounts[a].policy.target.boundOwner))]
      && w'.recovery == w.recovery.SetPhase(a, R.Approving(c.newOwner, c.round))
  {}

  lemma FreezeApproves(u: Setup, w: World, id: nat, c: Case)
    requires Managed(u, w, c.account) && c.account in w.signers && w.recovery.accounts[c.account].phase == R.Approving(c.newOwner, c.round)
    requires var key := w.recovery.accounts[c.account].policy.target.boundOwner;
      && key.Ed25519? && w.signers[c.account].publicKey == key
      && id in w.mail && w.mail[id] == RecoveryCall(c.account, c.round, u.activeSigner, R.Freeze(key))
    ensures var w' := Apply(u, Apply(u, w, Deliver(id, Works)), Deliver(id, Works));
      Ready(u, w', c) && w'.nextId == w.nextId
  {}

  lemma ApprovingReadies(u: Setup, w: World, c: Case)
    requires Waited(u, w, c) && Witnessed(u, c)
    ensures Ready(u, Run(u, w, Approving(w.nextId, c)), c)
    ensures Run(u, w, Approving(w.nextId, c)).nextId == w.nextId + 1
  {
    RunThree(u, w, SubmitVerdict(c.account, true, c.signatures), Deliver(w.nextId, Works), Deliver(w.nextId, Works));
    VerdictSent(u, w, c);
    FreezeApproves(u, Apply(u, w, SubmitVerdict(c.account, true, c.signatures)), w.nextId, c);
  }

  lemma SwapSent(u: Setup, w: World, c: Case)
    requires Ready(u, w, c) && c.newOwner.Ed25519?
    ensures var w', a := Apply(u, w, FinalizeRecovery(u.recovery.owner, c.account, 0, [])), c.account;
      var call := R.SwapOwner(c.newOwner, w.recovery.accounts[a].policy.target.boundOwner);
      && w'.signers == w.signers && w'.mail == w.mail[w.nextId := RecoveryCall(a, c.round, u.activeSigner, call)]
      && w'.recovery == w.recovery.SetPhase(a, R.Resolving(c.newOwner, c.round))
  {}

  lemma SwapRecovers(u: Setup, w: World, id: nat, c: Case)
    requires u.Wired() && IsAccountId(c.account) && c.newOwner.Ed25519?
    requires Managed(u, w, c.account) && c.account in w.signers && w.recovery.accounts[c.account].phase == R.Resolving(c.newOwner, c.round)
    requires var key := w.recovery.accounts[c.account].policy.target.boundOwner;
      && key.Ed25519? && w.signers[c.account].publicKey == key && w.signers[c.account].frozen != S.Unfrozen
      && id in w.mail && w.mail[id] == RecoveryCall(c.account, c.round, u.activeSigner, R.SwapOwner(c.newOwner, key))
    ensures Recovered(u, Apply(u, Apply(u, w, Deliver(id, Works)), Deliver(id, Works)), c)
  {}

  lemma FinalizingRecovers(u: Setup, w: World, c: Case)
    requires u.Wired() && IsAccountId(c.account) && c.newOwner.Ed25519? && Ready(u, w, c)
    ensures Recovered(u, Run(u, w, Finalizing(u, w.nextId, c)), c)
  {
    RunThree(u, w, FinalizeRecovery(u.recovery.owner, c.account, 0, []), Deliver(w.nextId, Works), Deliver(w.nextId, Works));
    SwapSent(u, w, c);
    SwapRecovers(u, Apply(u, w, FinalizeRecovery(u.recovery.owner, c.account, 0, [])), w.nextId, c);
  }

  // ----- the whole recovery -----

  lemma {:induction false} RunConcat(u: Setup, w: World, first: seq<Step>, second: seq<Step>)
    ensures Run(u, w, first + second) == Run(u, Run(u, w, first), second)
  {
    if second == [] {
      assert first + second == first;
    } else {
      assert (first + second)[..|first + second| - 1] == first + second[..|second| - 1];
      RunConcat(u, w, first, second[..|second| - 1]);
    }
  }

  function Plan(u: Setup, w: World, c: Case): seq<Step>
    requires c.account in w.recovery.accounts
  {
    Asking(w, c) + Approving(w.nextId, c) + Finalizing(u, w.nextId + 1, c)
  }

  /** Eight steps later the wallet answers to the new key, unfrozen, and the policy guards that key. */
  lemma RecoveryCompletes(u: Setup, w: World, c: Case)
    requires u.Wired() && Recoverable(u, w, c.account) && Attested(u, w, c) && Witnessed(u, c) && Due(w, c.account) < U64_LIMIT
    ensures Recovered(u, Run(u, w, Plan(u, w, c)), c)
  {
    var id := w.nextId;
    RunConcat(u, w, Asking(w, c), Approving(id, c));
    RunConcat(u, w, Asking(w, c) + Approving(id, c), Finalizing(u, id + 1, c));
    AskingWaits(u, w, c);
    var waited := Run(u, w, Asking(w, c));
    ApprovingReadies(u, waited, c);
    FinalizingRecovers(u, Run(u, waited, Approving(id, c)), c);
  }
}
