/** What every interleaving of recovery, signing and transfers keeps. */
module CustodyInvariant {
  import opened Types
  import opened Custody
  import S = SignerRules
  import R = RecoveryRules

  // ----- the vocabulary of the invariant -----

  /** The account's policy points at the active signer of this deployment. */
  predicate Managed(u: Setup, w: World, a: AccountId) {
    && a in w.recovery.accounts
    && w.recovery.accounts[a].policy.target.Wallet?
    && w.recovery.accounts[a].policy.target.activeSigner == u.activeSigner
  }

  /** Signing is off and the key is the one the policy is bound to, so the compare-and-swap will match. */
  predicate Locked(u: Setup, w: World, a: AccountId) {
    && Managed(u, w, a)
    && a in w.signers
    && w.signers[a].frozen != S.Unfrozen
    && w.signers[a].publicKey == w.recovery.accounts[a].policy.target.boundOwner
  }

  /** A receipt that has not yet released the wallet it holds: a freeze that worked, or a swap or unfreeze that has not. */
  predicate Holding(u: Setup, m: Mail) {
    && m.Recovery() && m.dest == u.activeSigner
    && match m
       case RecoveryCall(_, _, _, call) => call.SwapOwner? || call.Unfreeze?
       case RecoveryReply(_, _, _, call, result) =>
         if call.Freeze? then result.Returned? else (call.SwapOwner? || call.Unfreeze?) && result.Failed?
       case _ => false
  }

  /** The receipt is the one its account's phase is waiting for. */
  predicate Expected(u: Setup, w: World, m: Mail)
    requires m.Recovery()
  {
    && m.account in w.recovery.accounts
    && var entry := w.recovery.accounts[m.account];
       match m.call
       case Freeze(expected) =>
         entry.phase.Approving? && entry.phase.round == m.round && entry.policy.target == R.Wallet(m.dest, expected)
       case SwapOwner(newOwner, expected) =>
         entry.phase == R.Resolving(newOwner, m.round) && entry.policy.target == R.Wallet(m.dest, expected)
       case Unfreeze =>
         entry.phase.Resolving? && entry.phase.round == m.round && entry.policy.target.Wallet? &&
         entry.policy.target.activeSigner == m.dest
       case SignAddKey(_) =>
         entry.phase.Resolving? && entry.phase.round == m.round && entry.policy.target.Native? && m.dest == u.recovery.signer
  }

  predicate Waiting(p: R.Phase) {
    p.Approving? || p.Resolving?
  }

  predicate WellFormed(entry: R.Account) {
    && entry.policy.timelockSecs >= R.MIN_TIMELOCK_SECS
    && (!entry.phase.Idle? ==> entry.phase.round + 1 == entry.round)
    && (entry.policy.target.Wallet? ==> entry.policy.target.boundOwner.Ed25519?)
    && (entry.policy.target.Wallet? && !entry.phase.Idle? ==> entry.phase.newOwner.Ed25519?)
    && (entry.phase.Approving? ==> entry.policy.target.Wallet?)
  }

  // ----- the invariant, clause by clause -----

  ghost predicate FreshIds(w: World) {
    forall i :: i in w.mail ==> i < w.nextId
  }

  ghost predicate EntriesWellFormed(w: World) {
    forall a :: a in w.recovery.accounts ==> WellFormed(w.recovery.accounts[a])
  }

  /** At most one recovery receipt per account ... */
  ghost predicate OneEach(w: World) {
    forall i, j :: (i in w.mail && j in w.mail && w.mail[i].Recovery() && w.mail[j].Recovery() &&
                    w.mail[i].account == w.mail[j].account) ==> i == j
  }

  /** ... which is the one its phase waits for ... */
  ghost predicate AllExpected(u: Setup, w: World) {
    forall i :: i in w.mail && w.mail[i].Recovery() ==> Expected(u, w, w.mail[i])
  }

  ghost predicate HasMail(w: World, a: AccountId) {
    exists i :: i in w.mail && w.mail[i].Recovery() && w.mail[i].account == a
  }

  /** ... and a waiting phase always has it. */
  ghost predicate NoneLost(w: World) {
    forall a :: a in w.recovery.accounts && Waiting(w.recovery.accounts[a].phase) ==> HasMail(w, a)
  }

  ghost predicate ApprovedIsLocked(u: Setup, w: World) {
    forall a :: Managed(u, w, a) && w.recovery.accounts[a].phase.Approved? ==> Locked(u, w, a)
  }

  ghost predicate HeldIsLocked(u: Setup, w: World) {
    forall i :: i in w.mail && Holding(u, w.mail[i]) ==> Locked(u, w, w.mail[i].account)
  }

  ghost predicate Held(u: Setup, w: World, a: AccountId) {
    || (Managed(u, w, a) && w.recovery.accounts[a].phase.Approved?)
    || exists i :: i in w.mail && Holding(u, w.mail[i]) && w.mail[i].account == a
  }

  ghost predicate NoOrphans(u: Setup, w: World) {
    forall a :: a in w.signers && w.signers[a].frozen == S.RecoveryFrozen ==> Held(u, w, a)
  }

  /** A swap that reached this deployment's signer was never voided. */
  ghost predicate NeverVoided(u: Setup, w: World) {
    forall i :: (i in w.mail && w.mail[i].RecoveryReply? && w.mail[i].dest == u.activeSigner &&
                 w.mail[i].call.SwapOwner?) ==> w.mail[i].result != Returned(false)
  }

  ghost predicate Mailbox(u: Setup, w: World) {
    FreshIds(w) && OneEach(w) && AllExpected(u, w) && NoneLost(w)
  }

  ghost predicate Locks(u: Setup, w: World) {
    ApprovedIsLocked(u, w) && HeldIsLocked(u, w) && NoOrphans(u, w) && NeverVoided(u, w)
  }

  ghost predicate Inv(u: Setup, w: World) {
    EntriesWellFormed(w) && Mailbox(u, w) && Locks(u, w)
  }

  // ----- recovery calls that send nothing -----

  /** Only `a`'s entry changed, and neither before nor after was it waiting, approved on a wallet, or a different wallet. */
  lemma QuietRecovery(u: Setup, w: World, a: AccountId, s: R.State, log: seq<Event>)
    requires Inv(u, w)
    requires forall b :: b != a ==> (b in s.accounts <==> b in w.recovery.accounts)
    requires forall b :: b != a && b in s.accounts ==> s.accounts[b] == w.recovery.accounts[b]
    requires a in w.recovery.accounts ==>
               && !Waiting(w.recovery.accounts[a].phase)
               && (w.recovery.accounts[a].phase.Approved? ==> w.recovery.accounts[a].policy.target.Native?)
    requires a in s.accounts ==>
               && !Waiting(s.accounts[a].phase)
               && (s.accounts[a].phase.Approved? ==> s.accounts[a].policy.target.Native?)
               && WellFormed(s.accounts[a])
    ensures Inv(u, w.(recovery := s, log := log))
  {
    var w' := w.(recovery := s, log := log);
    forall i | i in w'.mail && w'.mail[i].Recovery() ensures w'.mail[i].account != a {
      assert Expected(u, w, w.mail[i]);
    }
    assert AllExpected(u, w');
    forall b | b in w'.recovery.accounts && Waiting(w'.recovery.accounts[b].phase) ensures HasMail(w', b) {
      assert HasMail(w, b);
    }
    forall b | b in w'.signers && w'.signers[b].frozen == S.RecoveryFrozen ensures Held(u, w', b) {
      assert Held(u, w, b);
    }
  }

  lemma InstallPolicyKeeps(u: Setup, w: World, step: Step)
    requires Inv(u, w) && step.InstallPolicy?
    ensures Inv(u, Apply(u, w, step))
  {
    var a := step.account;
    var o := R.InstallPolicy(u.recovery, w.recovery, step.caller, a, step.target, step.attestationKey, step.timelockSecs);
    if o.Done? {
      QuietRecovery(u, w, a, o.state, w.log);
      assert w.log + [] == w.log;
    }
  }

  lemma RequestKeeps(u: Setup, w: World, step: Step)
    requires Inv(u, w) && step.RequestRecovery?
    ensures Inv(u, Apply(u, w, step))
  {
    var w' := Apply(u, w, step);
    if w' != w {
      QuietRecovery(u, w, step.account, w'.recovery, w'.log);
    }
  }

  lemma ClaimKeeps(u: Setup, w: World, step: Step)
    requires Inv(u, w) && step.ClaimNativeFinalized?
    ensures Inv(u, Apply(u, w, step))
  {
    var w' := Apply(u, w, step);
    if w' != w {
      QuietRecovery(u, w, step.account, w'.recovery, w'.log);
    }
  }

  lemma ResetKeeps(u: Setup, w: World, a: AccountId, caller: AccountId)
    requires Inv(u, w)
    ensures Inv(u, Commit(w, a, R.OnWalletTransferred(u.recovery, w.recovery, caller, a), []))
  {
    var w' := Commit(w, a, R.OnWalletTransferred(u.recovery, w.recovery, caller, a), []);
    assert w.log + [] == w.log;
    if w' != w {
      QuietRecovery(u, w, a, w'.recovery, w'.log);
    }
  }

  // ----- recovery calls that send a receipt -----

  /** `a` moved to a waiting phase and its receipt was posted; a receipt that holds the wallet finds it locked. */
  /** `a` starts waiting for the receipt `m`, under the phase `p`. */
  ghost predicate Posted(u: Setup, w: World, w': World, a: AccountId, p: R.Phase, m: Mail) {
    && a in w.recovery.accounts && Waiting(p) && !Waiting(w.recovery.accounts[a].phase)
    && w'.recovery == w.recovery.SetPhase(a, p) && w'.signers == w.signers
    && w'.mail == w.mail[w.nextId := m] && w'.nextId == w.nextId + 1
    && m.RecoveryCall? && m.account == a && Expected(u, w', m)
  }

  lemma PostedMailbox(u: Setup, w: World, w': World, a: AccountId, p: R.Phase, m: Mail)
    requires Inv(u, w) && Posted(u, w, w', a, p, m)
    ensures Mailbox(u, w')
  {
    forall i | i in w.mail && w.mail[i].Recovery() ensures w.mail[i].account != a && Expected(u, w', w.mail[i]) {
      assert Expected(u, w, w.mail[i]);
    }
    assert w'.mail[w.nextId] == m;
    forall b | b in w'.recovery.accounts && Waiting(w'.recovery.accounts[b].phase) ensures HasMail(w', b) {
      if b != a {
        var i :| i in w.mail && w.mail[i].Recovery() && w.mail[i].account == b;
        assert w'.mail[i] == w.mail[i];
      }
    }
  }

  lemma PostedLocks(u: Setup, w: World, w': World, a: AccountId, p: R.Phase, m: Mail)
    requires Inv(u, w) && Posted(u, w, w', a, p, m)
    requires Holding(u, m) ==> Locked(u, w, a)
    ensures ApprovedIsLocked(u, w') && HeldIsLocked(u, w') && NeverVoided(u, w')
  {
    forall i | i in w'.mail && Holding(u, w'.mail[i]) ensures Locked(u, w', w'.mail[i].account) {
      if i != w.nextId { assert Locked(u, w, w.mail[i].account); }
    }
  }

  lemma PostedOrphans(u: Setup, w: World, w': World, a: AccountId, p: R.Phase, m: Mail)
    requires Inv(u, w) && Posted(u, w, w', a, p, m)
    requires Managed(u, w, a) && w.recovery.accounts[a].phase.Approved? ==> Holding(u, m)
    ensures NoOrphans(u, w')
  {
    assert w'.mail[w.nextId] == m;
    forall b | b in w'.signers && w'.signers[b].frozen == S.RecoveryFrozen ensures Held(u, w', b) {
      assert Held(u, w, b);
      if !(Managed(u, w, b) && w.recovery.accounts[b].phase.Approved?) {
        var i :| i in w.mail && Holding(u, w.mail[i]) && w.mail[i].account == b;
        assert w'.mail[i] == w.mail[i];
      }
    }
  }

  lemma PostedRecovery(u: Setup, w: World, a: AccountId, p: R.Phase, m: Mail, log: seq<Event>)
    requires Inv(u, w) && a in w.recovery.accounts && Waiting(p)
    requires m.RecoveryCall? && m.account == a
    requires !Waiting(w.recovery.accounts[a].phase)
    requires WellFormed(w.recovery.accounts[a].(phase := p))
    requires Expected(u, w.(recovery := w.recovery.SetPhase(a, p)), m)
    requires Managed(u, w, a) && w.recovery.accounts[a].phase.Approved? ==> Holding(u, m)
    requires Holding(u, m) ==> Locked(u, w, a)
    ensures Inv(u, Post(w.(recovery := w.recovery.SetPhase(a, p), log := log), m))
  {
    var w' := Post(w.(recovery := w.recovery.SetPhase(a, p), log := log), m);
    PostedMailbox(u, w, w', a, p, m);
    PostedLocks(u, w, w', a, p, m);
    PostedOrphans(u, w, w', a, p, m);
  }

  lemma VerdictKeeps(u: Setup, w: World, step: Step)
    requires Inv(u, w) && step.SubmitVerdict?
    ensures Inv(u, Apply(u, w, step))
  {
    var a := step.account;
    var o := R.SubmitVerdict(u.recovery, u.verify, w.recovery, w.now, a, step.silent, step.signatures);
    if o.Done? {
      var w' := Apply(u, w, step);
      var entry := w.recovery.accounts[a];
      assert WellFormed(entry);
      if o.dispatch.NoCall? {
        QuietRecovery(u, w, a, o.state, w'.log);
      } else {
        var p := R.Approving(entry.phase.newOwner, entry.phase.round);
        PostedRecovery(u, w, a, p, RecoveryCall(a, entry.phase.round, o.dispatch.dest, o.dispatch.call), w'.log);
      }
    }
  }

  lemma FinalizeKeeps(u: Setup, w: World, step: Step)
    requires Inv(u, w) && step.FinalizeRecovery?
    ensures Inv(u, Apply(u, w, step))
  {
    var a := step.account;
    var o := R.FinalizeRecovery(u.recovery, w.recovery, step.caller, a, step.nonce, step.blockHash);
    if o.Done? {
      var w' := Apply(u, w, step);
      var entry := w.recovery.accounts[a];
      assert WellFormed(entry);
      var p := R.Resolving(entry.phase.newOwner, entry.phase.round);
      PostedRecovery(u, w, a, p, RecoveryCall(a, entry.phase.round, o.dispatch.dest, o.dispatch.call), w'.log);
    }
  }

  lemma AbortKeeps(u: Setup, w: World, step: Step)
    requires Inv(u, w) && step.AbortRecovery?
    ensures Inv(u, Apply(u, w, step))
  {
    var a := step.account;
    var o := R.AbortRecovery(u.recovery, w.recovery, step.caller, a);
    if o.Done? {
      var w' := Apply(u, w, step);
      var entry := w.recovery.accounts[a];
      assert WellFormed(entry);
      if o.dispatch.NoCall? {
        QuietRecovery(u, w, a, o.state, w'.log);
      } else {
        var p := R.Resolving(entry.phase.newOwner, entry.phase.round);
        PostedRecovery(u, w, a, p, RecoveryCall(a, entry.phase.round, o.dispatch.dest, o.dispatch.call), w'.log);
      }
    }
  }

  // ----- callbacks -----

  /** The callback of receipt `id` settles its account's phase and the receipt is gone. */
  lemma ReplyMailbox(u: Setup, w: World, id: nat)
    requires Inv(u, w) && u.Wired() && id in w.mail && w.mail[id].RecoveryReply?
    ensures var w' := DoDeliver(u, w, id, Works); EntriesWellFormed(w') && Mailbox(u, w')
  {
    var m := w.mail[id];
    var a := m.account;
    var w' := DoDeliver(u, w, id, Works);
    assert Expected(u, w, m);
    var entry, entry' := w.recovery.accounts[a], w'.recovery.accounts[a];
    assert w'.recovery.accounts == w.recovery.accounts[a := entry'];
    assert !Waiting(entry'.phase);
    assert WellFormed(entry) && WellFormed(entry');
    forall i | i in w'.mail && w'.mail[i].Recovery() ensures w'.mail[i].account != a && Expected(u, w', w'.mail[i]) {
      assert w'.mail[i] == w.mail[i] && Expected(u, w, w.mail[i]);
    }
    forall b | b in w'.recovery.accounts && Waiting(w'.recovery.accounts[b].phase) ensures HasMail(w', b) {
      var i :| i in w.mail && w.mail[i].Recovery() && w.mail[i].account == b;
      assert w'.mail[i] == w.mail[i];
    }
  }

  lemma ReplyKeeps(u: Setup, w: World, id: nat)
    requires Inv(u, w) && u.Wired() && id in w.mail && w.mail[id].RecoveryReply?
    ensures Inv(u, DoDeliver(u, w, id, Works))
  {
    var m := w.mail[id];
    var a := m.account;
    var w' := DoDeliver(u, w, id, Works);
    assert Expected(u, w, m);
    ReplyMailbox(u, w, id);
    var entry' := w'.recovery.accounts[a];
    assert w'.recovery.accounts == w.recovery.accounts[a := entry'];
    forall i | i in w'.mail && Holding(u, w'.mail[i]) ensures Locked(u, w', w'.mail[i].account) {
      assert w'.mail[i] == w.mail[i] && Locked(u, w, w.mail[i].account) && w.mail[i].account != a;
    }
    if Managed(u, w', a) && entry'.phase.Approved? {
      assert Holding(u, m) && Locked(u, w, a);
    }
    forall b | b in w'.signers && w'.signers[b].frozen == S.RecoveryFrozen ensures Held(u, w', b) {
      ReplyOrphans(u, w, id, b);
    }
  }

  lemma ReplyOrphans(u: Setup, w: World, id: nat, b: AccountId)
    requires Inv(u, w) && id in w.mail && w.mail[id].RecoveryReply?
    requires b in w.signers && w.signers[b].frozen == S.RecoveryFrozen
    ensures Held(u, DoDeliver(u, w, id, Works), b)
  {
    var m := w.mail[id];
    var w' := DoDeliver(u, w, id, Works);
    assert Expected(u, w, m);
    assert Held(u, w, b);
    if b == m.account {
      var i :| i in w.mail && Holding(u, w.mail[i]) && w.mail[i].account == b;
      assert i == id;
    } else if !(Managed(u, w, b) && w.recovery.accounts[b].phase.Approved?) {
      var i :| i in w.mail && Holding(u, w.mail[i]) && w.mail[i].account == b;
      assert w'.mail[i] == w.mail[i];
    }
  }

  // ----- steps at the active signer -----

  /** Only `x`'s entry changed; it was not released if locked, and did not become recovery-frozen. */
  lemma QuietSigners(u: Setup, w: World, x: AccountId, s: S.Signers, log: seq<Event>)
    requires Inv(u, w)
    requires x in s && s == w.signers[x := s[x]]
    requires x in w.signers && w.signers[x].frozen != S.Unfrozen ==>
               s[x].frozen != S.Unfrozen && s[x].publicKey == w.signers[x].publicKey
    requires s[x].frozen == S.RecoveryFrozen ==> x in w.signers && w.signers[x].frozen == S.RecoveryFrozen
    ensures Inv(u, w.(signers := s, log := log))
  {
    var w' := w.(signers := s, log := log);
    assert AllExpected(u, w') by {
      forall i | i in w'.mail && w'.mail[i].Recovery() ensures Expected(u, w', w'.mail[i]) {
        assert Expected(u, w, w.mail[i]);
      }
    }
    forall b | b in w'.recovery.accounts && Waiting(w'.recovery.accounts[b].phase) ensures HasMail(w', b) {
      assert HasMail(w, b);
    }
    forall b | Locked(u, w, b) ensures Locked(u, w', b) {}
    forall b | b in w'.signers && w'.signers[b].frozen == S.RecoveryFrozen ensures Held(u, w', b) {
      assert Held(u, w, b);
    }
  }

  lemma SignerStepKeeps(u: Setup, w: World, step: Step)
    requires Inv(u, w)
    requires step.InstallSigner? || step.SelfFreeze? || step.SubmitSigned? || step.AuthoritySign?
    ensures Inv(u, Apply(u, w, step))
  {
    var w' := Apply(u, w, step);
    if w' != w {
      QuietSigners(u, w, step.wallet, w'.signers, w'.log);
    }
  }

  /** Mail that is not recovery's may come, go and change freely. */
  lemma QuietMail(u: Setup, w: World, mail: map<nat, Mail>, nextId: nat)
    requires Inv(u, w) && w.nextId <= nextId
    requires forall i :: i in mail ==> i < nextId
    requires forall i :: i in mail && mail[i].Recovery() ==> i in w.mail && w.mail[i] == mail[i]
    requires forall i :: i in w.mail && w.mail[i].Recovery() ==> i in mail && w.mail[i] == mail[i]
    ensures Inv(u, w.(mail := mail, nextId := nextId))
  {
    var w' := w.(mail := mail, nextId := nextId);
    forall i | i in w'.mail && w'.mail[i].Recovery() ensures Expected(u, w', w'.mail[i]) {
      assert Expected(u, w, w.mail[i]);
    }
    forall b | b in w'.recovery.accounts && Waiting(w'.recovery.accounts[b].phase) ensures HasMail(w', b) {
      var i :| i in w.mail && w.mail[i].Recovery() && w.mail[i].account == b;
      assert mail[i] == w.mail[i];
    }
    forall i | i in w'.mail && Holding(u, w'.mail[i]) ensures Locked(u, w', w'.mail[i].account) {
      assert w.mail[i] == mail[i] && Locked(u, w, w.mail[i].account);
    }
    forall b | b in w'.signers && w'.signers[b].frozen == S.RecoveryFrozen ensures Held(u, w', b) {
      assert Held(u, w, b);
      if !(Managed(u, w, b) && w.recovery.accounts[b].phase.Approved?) {
        var i :| i in w.mail && Holding(u, w.mail[i]) && w.mail[i].account == b;
        assert mail[i] == w.mail[i];
      }
    }
  }

  lemma MarketSwapKeeps(u: Setup, w: World, id: nat, fate: Fate)
    requires Inv(u, w) && id in w.mail && w.mail[id].MarketSwap?
    ensures Inv(u, DoDeliver(u, w, id, fate))
  {
    var w' := DoDeliver(u, w, id, fate);
    var mid := w.(signers := w'.signers, log := w'.log);
    if w'.signers != w.signers {
      QuietSigners(u, w, w.mail[id].wallet, w'.signers, w'.log);
    } else {
      assert Inv(u, mid);
    }
    QuietMail(u, mid, w'.mail, w'.nextId);
    assert w' == mid.(mail := w'.mail, nextId := w'.nextId);
  }

  lemma TransferMailKeeps(u: Setup, w: World, id: nat, fate: Fate)
    requires Inv(u, w) && id in w.mail && (w.mail[id].AfterSwap? || w.mail[id].PolicyReset?)
    ensures Inv(u, DoDeliver(u, w, id, fate))
  {
    var m := w.mail[id];
    if m.AfterSwap? {
      var w' := DoDeliver(u, w, id, fate);
      QuietMail(u, w, w'.mail, w'.nextId);
    } else {
      var mid := w.(mail := w.mail - {id});
      QuietMail(u, w, mid.mail, w.nextId);
      ResetKeeps(u, mid, m.wallet, u.extension);
    }
  }

  // ----- recovery receipts running -----

  /** Receipt `id` turned into its reply; `a`'s signer entry may have changed with it. */
  lemma RepliedKeeps(u: Setup, w: World, id: nat, result: CallResult, s: S.Signers, log: seq<Event>)
    requires Inv(u, w) && id in w.mail && w.mail[id].RecoveryCall?
    requires var m := w.mail[id];
      var reply := RecoveryReply(m.account, m.round, m.dest, m.call, result);
      && (forall b :: b != m.account ==> (b in s <==> b in w.signers))
      && (forall b :: b != m.account && b in s ==> s[b] == w.signers[b])
      && (Holding(u, reply) ==> Locked(u, w.(signers := s), m.account))
      && (m.account in s && s[m.account].frozen == S.RecoveryFrozen ==>
            Holding(u, reply) || (s == w.signers && !Holding(u, w.mail[id])))
      && (m.dest == u.activeSigner && m.call.SwapOwner? ==> result != Returned(false))
    ensures var m := w.mail[id];
      Inv(u, w.(signers := s, mail := w.mail[id := RecoveryReply(m.account, m.round, m.dest, m.call, result)], log := log))
  {
    var m := w.mail[id];
    var a := m.account;
    var reply := RecoveryReply(a, m.round, m.dest, m.call, result);
    var w' := w.(signers := s, mail := w.mail[id := reply], log := log);
    assert Expected(u, w, m);
    forall i | i in w'.mail && w'.mail[i].Recovery() ensures Expected(u, w', w'.mail[i]) {
      assert Expected(u, w, w.mail[i]);
    }
    forall b | b in w'.recovery.accounts && Waiting(w'.recovery.accounts[b].phase) ensures HasMail(w', b) {
      var i :| i in w.mail && w.mail[i].Recovery() && w.mail[i].account == b;
      assert w'.mail[i].Recovery() && w'.mail[i].account == b;
    }
    forall i | i in w'.mail && Holding(u, w'.mail[i]) ensures Locked(u, w', w'.mail[i].account) {
      if i != id { assert w.mail[i].account != a && Locked(u, w, w.mail[i].account); }
    }
    forall b | b in w'.signers && w'.signers[b].frozen == S.RecoveryFrozen ensures Held(u, w', b) {
      if b == a && Holding(u, reply) {
        assert w'.mail[id] == reply;
      } else {
        assert Held(u, w, b);
        if !(Managed(u, w, b) && w.recovery.accounts[b].phase.Approved?) {
          var i :| i in w.mail && Holding(u, w.mail[i]) && w.mail[i].account == b;
          assert w'.mail[i] == w.mail[i];
        }
      }
    }
  }

  lemma CallKeeps(u: Setup, w: World, id: nat, fate: Fate)
    requires Inv(u, w) && u.Wired() && id in w.mail && w.mail[id].RecoveryCall?
    ensures Inv(u, DoDeliver(u, w, id, fate))
  {
    var m := w.mail[id];
    var w' := DoDeliver(u, w, id, fate);
    var result := w'.mail[id].result;
    assert Expected(u, w, m);
    if Holding(u, m) { assert Locked(u, w, m.account); }
    assert WellFormed(w.recovery.accounts[m.account]);
    RepliedKeeps(u, w, id, result, w'.signers, w'.log);
  }

  // ----- every step, every run -----

  lemma StepKeeps(u: Setup, w: World, step: Step)
    requires Inv(u, w) && u.Wired()
    ensures Inv(u, Apply(u, w, step))
  {
    match step
    case Tick(to) =>
      assert Apply(u, w, step) == w.(now := Max(w.now, to));
      TimeKeeps(u, w, Max(w.now, to));
    case InstallPolicy(_, _, _, _, _) => InstallPolicyKeeps(u, w, step);
    case RequestRecovery(_, _, _, _) => RequestKeeps(u, w, step);
    case SubmitVerdict(_, _, _) => VerdictKeeps(u, w, step);
    case FinalizeRecovery(_, _, _, _) => FinalizeKeeps(u, w, step);
    case AbortRecovery(_, _) => AbortKeeps(u, w, step);
    case ClaimNativeFinalized(_, _, _) => ClaimKeeps(u, w, step);
    case ForceTransfer(_, _, _) =>
      var w' := Apply(u, w, step);
      QuietMail(u, w, w'.mail, w'.nextId);
    case Deliver(id, fate) => DeliverKeeps(u, w, id, fate);
    case _ => SignerStepKeeps(u, w, step);
  }

  lemma TimeKeeps(u: Setup, w: World, now: nat)
    requires Inv(u, w)
    ensures Inv(u, w.(now := now))
  {
    var w' := w.(now := now);
    forall i | i in w'.mail && w'.mail[i].Recovery() ensures Expected(u, w', w'.mail[i]) {
      assert Expected(u, w, w.mail[i]);
    }
    forall b | b in w'.recovery.accounts && Waiting(w'.recovery.accounts[b].phase) ensures HasMail(w', b) {
      assert HasMail(w, b);
    }
    forall b | b in w'.signers && w'.signers[b].frozen == S.RecoveryFrozen ensures Held(u, w', b) {
      assert Held(u, w, b);
    }
  }

  lemma DeliverKeeps(u: Setup, w: World, id: nat, fate: Fate)
    requires Inv(u, w) && u.Wired()
    ensures Inv(u, DoDeliver(u, w, id, fate))
  {
    if id in w.mail {
      match w.mail[id]
      case RecoveryCall(_, _, _, _) => CallKeeps(u, w, id, fate);
      case RecoveryReply(_, _, _, _, _) => ReplyKeeps(u, w, id);
      case MarketSwap(_, _, _) => MarketSwapKeeps(u, w, id, fate);
      case _ => TransferMailKeeps(u, w, id, fate);
    }
  }

  lemma {:induction false} RunKeeps(u: Setup, steps: seq<Step>)
    requires u.Wired()
    ensures Inv(u, Run(u, Start, steps))
  {
    if steps != [] {
      RunKeeps(u, steps[..|steps| - 1]);
      StepKeeps(u, Run(u, Start, steps[..|steps| - 1]), steps[|steps| - 1]);
    }
  }

  lemma ReachableKeeps(u: Setup, w: World)
    requires u.Wired() && Reachable(u, w)
    ensures Inv(u, w)
  {
    var steps: seq<Step> :| Run(u, Start, steps) == w;
    RunKeeps(u, steps);
  }
}
