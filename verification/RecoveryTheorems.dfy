/** The recovery protocol's guarantees, in every reachable state of the composed system. */
module RecoveryTheorems {
  import opened Types
  import opened Custody
  import opened CustodyInvariant
  import opened RecoveryHistory
  import S = SignerRules
  import R = RecoveryRules
  import Msg = RecoveryMessages

  lemma ReachableHistory(u: Setup, w: World)
    requires u.Wired() && Reachable(u, w)
    ensures History(u, w)
  {
    var steps: seq<Step> :| Run(u, Start, steps) == w;
    RunHistory(u, steps);
  }

  // ----- the freeze and the compare-and-swap -----

  /** An approved wallet recovery always finds the wallet frozen, with the key it is bound to. */
  lemma ApprovedWalletIsLocked(u: Setup, w: World, a: AccountId)
    requires u.Wired() && Reachable(u, w)
    requires Managed(u, w, a) && w.recovery.accounts[a].phase.Approved?
    ensures Locked(u, w, a)
  {
    ReachableKeeps(u, w);
  }

  /** A `swap_owner` in flight from recovery, if it runs, succeeds: it is neither rejected nor voided. */
  lemma RecoverySwapAlwaysMatches(u: Setup, w: World, id: nat)
    requires u.Wired() && Reachable(u, w)
    requires id in w.mail && w.mail[id].RecoveryCall? && w.mail[id].call.SwapOwner? && w.mail[id].dest == u.activeSigner
    ensures Locked(u, w, w.mail[id].account)
    ensures S.SwapOwner(u.Authorities(), w.signers, u.recovery.self, w.mail[id].account, w.mail[id].call.newOwner,
                        Some(w.mail[id].call.expected)).Swapped?
  {
    ReachableKeeps(u, w);
    var m := w.mail[id];
    assert Holding(u, m) && Expected(u, w, m) && WellFormed(w.recovery.accounts[m.account]);
  }

  /** So the branch that voids a recovery is dead for wallets of this deployment. */
  lemma RecoveryIsNeverVoided(u: Setup, w: World, id: nat)
    requires u.Wired() && Reachable(u, w)
    requires id in w.mail && w.mail[id].RecoveryReply? && w.mail[id].call.SwapOwner? && w.mail[id].dest == u.activeSigner
    ensures w.mail[id].result != Returned(false)
  {
    ReachableKeeps(u, w);
  }

  /** Policy reset, reinstall and cancel never strand a wallet recovery has frozen. */
  lemma NoOrphanedFreeze(u: Setup, w: World, x: AccountId)
    requires u.Wired() && Reachable(u, w)
    requires x in w.signers && w.signers[x].frozen == S.RecoveryFrozen
    ensures Managed(u, w, x)
    ensures var phase := w.recovery.accounts[x].phase; phase.Approving? || phase.Approved? || phase.Resolving?
  {
    ReachableKeeps(u, w);
    assert Held(u, w, x);
    if !(Managed(u, w, x) && w.recovery.accounts[x].phase.Approved?) {
      var i :| i in w.mail && Holding(u, w.mail[i]) && w.mail[i].account == x;
      assert Expected(u, w, w.mail[i]);
    }
  }

  /** One receipt per waiting account, none otherwise, and it carries the phase's round. */
  lemma OneOutstandingCall(u: Setup, w: World, a: AccountId)
    requires u.Wired() && Reachable(u, w)
    ensures HasMail(w, a) <==> a in w.recovery.accounts && Waiting(w.recovery.accounts[a].phase)
    ensures forall i, j :: (i in w.mail && j in w.mail && w.mail[i].Recovery() && w.mail[j].Recovery() &&
                            w.mail[i].account == a && w.mail[j].account == a) ==> i == j
    ensures forall i :: i in w.mail && w.mail[i].Recovery() && w.mail[i].account == a ==>
              w.recovery.accounts[a].phase.round == w.mail[i].round
  {
    ReachableKeeps(u, w);
    forall i | i in w.mail && w.mail[i].Recovery() && w.mail[i].account == a
      ensures a in w.recovery.accounts && Waiting(w.recovery.accounts[a].phase) &&
              w.recovery.accounts[a].phase.round == w.mail[i].round
    {
      assert Expected(u, w, w.mail[i]);
    }
  }

  // ----- where a key change comes from -----

  /**
   Every recovery swap goes back to a request attested for exactly this account, key and round, and a
   later quorum verdict on the same three, at least the policy's timelock (itself at least 60 s) apart.
   */
  lemma SwapProvenance(u: Setup, w: World, i: nat)
    requires u.Wired() && Reachable(u, w)
    requires i < |w.log| && w.log[i].RecoverySwapped?
    ensures var RecoverySwapped(a, _, key, round) := w.log[i];
      exists j, k ::
        && 0 <= j < k < i
        && IsRequest(w.log[j], a, key, round) && IsApproval(w.log[k], a, key, round)
        && WaitedLongEnough(w.log[j], w.log[k])
        && Signatures(u, w.log[j]) && Signatures(u, w.log[k])
  {
    ReachableHistory(u, w);
    var RecoverySwapped(a, _, key, round) := w.log[i];
    assert Earned(u, w.log[..i], w.log[i]);
    var j, k :| Rests(w.log[..i], j, k, a, key, round);
    assert Earned(u, w.log[..j], w.log[j]) && Earned(u, w.log[..k], w.log[k]);
    assert w.log[..i][j] == w.log[j] && w.log[..i][k] == w.log[k];
  }

  /** The same for what a native recovery has signed: a transaction that adds exactly the attested key to the account. */
  lemma NativeSignatureProvenance(u: Setup, w: World, i: nat)
    requires u.Wired() && Reachable(u, w)
    requires i < |w.log| && w.log[i].NativeSignRequested?
    ensures var NativeSignRequested(a, key, round, payload) := w.log[i];
      && AddsKey(payload, a, key)
      && exists j, k ::
           && 0 <= j < k < i
           && IsRequest(w.log[j], a, key, round) && IsApproval(w.log[k], a, key, round)
           && WaitedLongEnough(w.log[j], w.log[k])
           && Signatures(u, w.log[j]) && Signatures(u, w.log[k])
  {
    ReachableHistory(u, w);
    var NativeSignRequested(a, key, round, _) := w.log[i];
    assert Earned(u, w.log[..i], w.log[i]);
    var j, k :| Rests(w.log[..i], j, k, a, key, round);
    assert Earned(u, w.log[..j], w.log[j]) && Earned(u, w.log[..k], w.log[k]);
    assert w.log[..i][j] == w.log[j] && w.log[..i][k] == w.log[k];
  }

  /** However often a failed finalize is retried, a round changes the key once. */
  lemma OneSwapPerRound(u: Setup, w: World, i: nat, j: nat)
    requires u.Wired() && Reachable(u, w)
    requires i < j < |w.log| && w.log[i].RecoverySwapped? && w.log[j].RecoverySwapped? && w.log[i].wallet == w.log[j].wallet
    ensures w.log[i].round != w.log[j].round
  {
    ReachableHistory(u, w);
  }

  // ----- rounds and replay -----

  /** The n-th accepted request of an account carries round n-1, through every reinstall and reset. */
  lemma RoundsAreConsecutive(u: Setup, w: World, i: nat)
    requires u.Wired() && Reachable(u, w)
    requires i < |w.log| && w.log[i].RequestAccepted?
    ensures w.log[i].round == Requests(w.log[..i], w.log[i].account)
  {
    ReachableHistory(u, w);
    assert Earned(u, w.log[..i], w.log[i]);
  }

  lemma {:induction false} RequestsGrow(log: seq<Event>, i: nat, j: nat, a: AccountId)
    requires i < j <= |log| && log[i].RequestAccepted? && log[i].account == a
    ensures Requests(log[..i], a) < Requests(log[..j], a)
  {
    var p := log[..j];
    assert p[|p| - 1] == log[j - 1] && p[..|p| - 1] == log[..j - 1];
    if i < j - 1 { RequestsGrow(log, i, j - 1, a); }
  }

  /** No attested message is accepted twice, in any two rounds of any accounts. */
  lemma RequestsAreNeverReplayed(u: Setup, w: World, i: nat, j: nat)
    requires u.Wired() && Reachable(u, w)
    requires i < j < |w.log| && w.log[i].RequestAccepted? && w.log[j].RequestAccepted?
    ensures Msg.RequestMessage(R.SubjectOf(u.recovery, w.log[i].account, w.log[i].newOwner, w.log[i].round)) !=
            Msg.RequestMessage(R.SubjectOf(u.recovery, w.log[j].account, w.log[j].newOwner, w.log[j].round))
  {
    ReachableHistory(u, w);
    var e, f := w.log[i], w.log[j];
    assert Earned(u, w.log[..i], e) && Earned(u, w.log[..j], f);
    var s := R.SubjectOf(u.recovery, e.account, e.newOwner, e.round);
    var t := R.SubjectOf(u.recovery, f.account, f.newOwner, f.round);
    if e.account == f.account { RequestsGrow(w.log, i, j, e.account); }
    if Msg.RequestMessage(s) == Msg.RequestMessage(t) { Msg.RequestInjective(s, t); }
  }

  /** No verdict message is accepted twice either, whether it approves or cancels. */
  lemma VerdictsAreNeverReplayed(u: Setup, w: World, i: nat, j: nat)
    requires u.Wired() && Reachable(u, w)
    requires i < j < |w.log| && w.log[i].VerdictAccepted? && w.log[j].VerdictAccepted?
    ensures Msg.VerdictMessage(R.SubjectOf(u.recovery, w.log[i].account, w.log[i].newOwner, w.log[i].round), w.log[i].silent) !=
            Msg.VerdictMessage(R.SubjectOf(u.recovery, w.log[j].account, w.log[j].newOwner, w.log[j].round), w.log[j].silent)
  {
    ReachableHistory(u, w);
    var e, f := w.log[i], w.log[j];
    assert Earned(u, w.log[..i], e) && Earned(u, w.log[..j], f);
    var s := R.SubjectOf(u.recovery, e.account, e.newOwner, e.round);
    var t := R.SubjectOf(u.recovery, f.account, f.newOwner, f.round);
    if Msg.VerdictMessage(s, e.silent) == Msg.VerdictMessage(t, f.silent) {
      Msg.VerdictInjective(s, e.silent, t, f.silent);
    }
  }
}
