/** Reading keys, freezes and signatures off the history, and what the order of events can be. */
module SignerHistory {
  import opened Types
  import opened Custody
  import S = SignerRules
  import R = RecoveryRules
  import Tx = Transactions
  import Nep413

  // ----- the history's own account of a wallet -----

  /** The operating key according to the last installation or swap. */
  ghost function KeyAfter(log: seq<Event>, x: AccountId): Option<PublicKey> {
    if log == [] then None
    else
      var e := log[|log| - 1];
      if SetsKey(e, x) then Some(KeySet(e)) else KeyAfter(log[..|log| - 1], x)
  }

  predicate SetsKey(e: Event, x: AccountId) {
    (e.Installed? || e.RecoverySwapped? || e.MarketSwapped?) && e.wallet == x
  }

  function KeySet(e: Event): PublicKey
    requires e.Installed? || e.RecoverySwapped? || e.MarketSwapped?
  {
    if e.Installed? then e.key else e.to
  }

  predicate Releases(e: Event, x: AccountId) {
    (e.RecoverySwapped? || e.Unfroze?) && e.wallet == x
  }

  /** A recovery freeze has taken effect and neither a recovery swap nor an unfreeze since. */
  ghost predicate HeldAfter(log: seq<Event>, x: AccountId) {
    log != [] &&
    var e := log[|log| - 1];
    ((e.Froze? && e.wallet == x) || (!Releases(e, x) && HeldAfter(log[..|log| - 1], x)))
  }

  /** The owner has frozen the wallet and no recovery swap has come since. */
  ghost predicate HaltedAfter(log: seq<Event>, x: AccountId) {
    log != [] &&
    var e := log[|log| - 1];
    ((e.SelfFroze? && e.wallet == x) ||
     (!(e.RecoverySwapped? && e.wallet == x) && HaltedAfter(log[..|log| - 1], x)))
  }

  lemma FoldsSnoc(log: seq<Event>, e: Event, x: AccountId)
    ensures KeyAfter(log + [e], x) == if SetsKey(e, x) then Some(KeySet(e)) else KeyAfter(log, x)
    ensures HeldAfter(log + [e], x) <==> (e.Froze? && e.wallet == x) || (!Releases(e, x) && HeldAfter(log, x))
    ensures HaltedAfter(log + [e], x) <==>
            (e.SelfFroze? && e.wallet == x) || (!(e.RecoverySwapped? && e.wallet == x) && HaltedAfter(log, x))
  {
    assert (log + [e])[..|log|] == log;
  }

  // ----- the history agrees with the table -----

  /** Bytes the contract builds itself: a transaction of this wallet, or a NEP-413 message. */
  ghost predicate BuiltHere(x: AccountId, payload: Bytes) {
    || (exists h: Tx.Header, actions ::
          h.Valid() && h.signer == x && Tx.ValidActions(actions) && payload == Tx.EncodeTransaction(h, actions))
    || (exists m: Nep413.Message :: m.Valid() && payload == Nep413.EncodePayload(m))
  }

  ghost predicate TracksWallet(w: World, x: AccountId) {
    && KeyAfter(w.log, x) == (if x in w.signers then Some(w.signers[x].publicKey) else None)
    && (x in w.signers ==> w.signers[x].mpcPublicKey.Valid())
    && (HeldAfter(w.log, x) ==> x in w.signers && w.signers[x].frozen != S.Unfrozen)
    && (HaltedAfter(w.log, x) ==> x in w.signers && w.signers[x].frozen == S.SelfFrozen)
  }

  ghost predicate Tracks(w: World) {
    forall x :: TracksWallet(w, x)
  }

  /** What had to be true just before the event. */
  ghost predicate Fits(before: seq<Event>, e: Event) {
    match e
    case Installed(x, _) => KeyAfter(before, x) == None && !HaltedAfter(before, x)
    case RecoverySwapped(x, from, _, _) => KeyAfter(before, x) == Some(from)
    case MarketSwapped(x, from, _) => KeyAfter(before, x) == Some(from) && !HeldAfter(before, x) && !HaltedAfter(before, x)
    case Froze(x, expected) => KeyAfter(before, x) == Some(expected)
    case Unfroze(x) => !HaltedAfter(before, x)
    case Signed(x, payload) => !HeldAfter(before, x) && !HaltedAfter(before, x) && BuiltHere(x, payload)
    case _ => true
  }

  ghost predicate AllFit(log: seq<Event>) {
    forall i :: 0 <= i < |log| ==> Fits(log[..i], log[i])
  }

  ghost predicate SignerInv(w: World) {
    Tracks(w) && AllFit(w.log)
  }

  lemma AllFitSnoc(log: seq<Event>, e: Event)
    requires AllFit(log) && Fits(log, e)
    ensures AllFit(log + [e])
  {
    var log' := log + [e];
    forall i | 0 <= i < |log'| ensures Fits(log'[..i], log'[i]) {
      if i < |log| {
        assert log'[..i] == log[..i];
      } else {
        assert log'[..i] == log;
      }
    }
  }

  /** One event, and at most the entry of its wallet `x` changed. */
  lemma OneEvent(w: World, w': World, e: Event, x: AccountId)
    requires SignerInv(w) && w'.log == w.log + [e] && Fits(w.log, e)
    requires forall y :: y != x ==> (y in w.signers <==> y in w'.signers)
    requires forall y :: y != x && y in w.signers ==> w.signers[y] == w'.signers[y]
    requires forall y :: y != x ==> !SetsKey(e, y) && !(e.Froze? && e.wallet == y) && !(e.SelfFroze? && e.wallet == y)
    requires TracksWallet(w', x)
    ensures SignerInv(w')
  {
    AllFitSnoc(w.log, e);
    forall y ensures TracksWallet(w', y) {
      assert TracksWallet(w, y);
      FoldsSnoc(w.log, e, y);
    }
  }

  /** Events that say nothing about the table. */
  lemma NeutralEvents(w: World, w': World)
    requires SignerInv(w) && w'.signers == w.signers
    requires w'.log == w.log ||
             (|w'.log| == |w.log| + 1 && w'.log == w.log + [w'.log[|w.log|]] &&
              (w'.log[|w.log|].RequestAccepted? || w'.log[|w.log|].VerdictAccepted? || w'.log[|w.log|].NativeSignRequested?))
    ensures SignerInv(w')
  {
    if w'.log == w.log {
      forall y ensures TracksWallet(w', y) { assert TracksWallet(w, y); }
    } else {
      var e := w'.log[|w.log|];
      AllFitSnoc(w.log, e);
      forall y ensures TracksWallet(w', y) {
        assert TracksWallet(w, y);
        FoldsSnoc(w.log, e, y);
      }
    }
  }

  lemma SignedFits(w: World, x: AccountId, mpcKey: PublicKey, r: S.Request)
    requires S.Acceptable(x, r) && mpcKey.Valid()
    ensures BuiltHere(x, S.BytesToSign(x, mpcKey, r))
  {
    match r
    case SignTx(receiver, actions, txNonce, blockHash) =>
      var h := Tx.Header(x, mpcKey, txNonce, receiver, blockHash);
      assert h.Valid() && h.signer == x && Tx.ValidActions(actions);
    case SignMessage(text, nonce, recipient, url) =>
      var m := Nep413.Message(text, nonce, recipient, url);
      assert m.Valid();
  }

  lemma OwnerStepFits(u: Setup, w: World, step: Step)
    requires SignerInv(w) && (step.InstallSigner? || step.SelfFreeze?)
    ensures SignerInv(Apply(u, w, step))
  {
    var w' := Apply(u, w, step);
    if w' != w {
      var x := step.wallet;
      assert TracksWallet(w, x);
      var e := w'.log[|w.log|];
      FoldsSnoc(w.log, e, x);
      OneEvent(w, w', e, x);
    }
  }

  lemma SigningStepFits(u: Setup, w: World, step: Step)
    requires SignerInv(w) && (step.SubmitSigned? || step.AuthoritySign?)
    ensures SignerInv(Apply(u, w, step))
  {
    var w' := Apply(u, w, step);
    if w' != w {
      var x := step.wallet;
      assert TracksWallet(w, x);
      var e := w'.log[|w.log|];
      SignedFits(w, x, w.signers[x].mpcPublicKey, step.request);
      FoldsSnoc(w.log, e, x);
      OneEvent(w, w', e, x);
    }
  }

  lemma RunCallFits(u: Setup, w: World, w': World, x: AccountId, round: nat, call: R.Call)
    requires SignerInv(w) && u.Wired()
    requires var (s, _, events) := RunCall(u, w.signers, x, round, call); w'.signers == s && w'.log == w.log + events
    ensures SignerInv(w')
  {
    assert TracksWallet(w, x);
    if |w'.log| > |w.log| {
      var e := w'.log[|w.log|];
      FoldsSnoc(w.log, e, x);
      match call {
        case Freeze(_) => assert TracksWallet(w', x);
        case SwapOwner(_, _) => assert TracksWallet(w', x);
        case _ => assert TracksWallet(w', x);
      }
      OneEvent(w, w', e, x);
    } else {
      assert w.log + [] == w.log;
      NeutralEvents(w, w');
    }
  }

  lemma CallFits(u: Setup, w: World, id: nat, fate: Fate)
    requires SignerInv(w) && u.Wired() && id in w.mail && w.mail[id].RecoveryCall?
    ensures SignerInv(DoDeliver(u, w, id, fate))
  {
    var w' := DoDeliver(u, w, id, fate);
    var m := w.mail[id];
    if fate.Fails? || m.dest != u.activeSigner {
      NeutralEvents(w, w');
    } else {
      RunCallFits(u, w, w', m.account, m.round, m.call);
    }
  }

  lemma MarketSwapFits(u: Setup, w: World, id: nat, fate: Fate)
    requires SignerInv(w) && u.Wired() && id in w.mail && w.mail[id].MarketSwap?
    ensures SignerInv(DoDeliver(u, w, id, fate))
  {
    var w' := DoDeliver(u, w, id, fate);
    var x := w.mail[id].wallet;
    assert TracksWallet(w, x);
    if |w'.log| > |w.log| {
      var e := w'.log[|w.log|];
      FoldsSnoc(w.log, e, x);
      OneEvent(w, w', e, x);
    } else {
      assert w.log + [] == w.log;
      NeutralEvents(w, w');
    }
  }

  lemma StepFits(u: Setup, w: World, step: Step)
    requires SignerInv(w) && u.Wired()
    ensures SignerInv(Apply(u, w, step))
  {
    var w' := Apply(u, w, step);
    if step.InstallSigner? || step.SelfFreeze? || step.SubmitSigned? || step.AuthoritySign? {
      if step.InstallSigner? || step.SelfFreeze? { OwnerStepFits(u, w, step); } else { SigningStepFits(u, w, step); }
    } else if step.Deliver? && step.id in w.mail && w.mail[step.id].RecoveryCall? {
      CallFits(u, w, step.id, step.fate);
    } else if step.Deliver? && step.id in w.mail && w.mail[step.id].MarketSwap? {
      MarketSwapFits(u, w, step.id, step.fate);
    } else {
      assert w.log + [] == w.log;
      NeutralEvents(w, w');
    }
  }

  lemma {:induction false} RunFits(u: Setup, steps: seq<Step>)
    requires u.Wired()
    ensures SignerInv(Run(u, Start, steps))
  {
    if steps != [] {
      RunFits(u, steps[..|steps| - 1]);
      StepFits(u, Run(u, Start, steps[..|steps| - 1]), steps[|steps| - 1]);
    }
  }

  // ----- what the history rules out -----

  lemma {:induction false} HeldUntilReleased(log: seq<Event>, i: nat, j: nat, x: AccountId)
    requires i < j <= |log| && log[i].Froze? && log[i].wallet == x && !HeldAfter(log[..j], x)
    ensures exists k :: i < k < j && Releases(log[k], x)
  {
    var p := log[..j];
    assert p[|p| - 1] == log[j - 1] && p[..|p| - 1] == log[..j - 1];
    if !Releases(log[j - 1], x) || j - 1 == i {
      HeldUntilReleased(log, i, j - 1, x);
    }
  }

  lemma {:induction false} HaltedUntilSwapped(log: seq<Event>, i: nat, j: nat, x: AccountId)
    requires i < j <= |log| && log[i].SelfFroze? && log[i].wallet == x && !HaltedAfter(log[..j], x)
    ensures exists k :: i < k < j && log[k].RecoverySwapped? && log[k].wallet == x
  {
    var p := log[..j];
    assert p[|p| - 1] == log[j - 1] && p[..|p| - 1] == log[..j - 1];
    if !(log[j - 1].RecoverySwapped? && log[j - 1].wallet == x) {
      HaltedUntilSwapped(log, i, j - 1, x);
    }
  }

  lemma {:induction false} KeyUntilSet(log: seq<Event>, i: nat, j: nat, x: AccountId)
    requires i <= j <= |log| && KeyAfter(log[..i], x) != KeyAfter(log[..j], x)
    ensures exists k :: i <= k < j && SetsKey(log[k], x) && KeyAfter(log[..j], x) == Some(KeySet(log[k]))
  {
    var p := log[..j];
    assert p[|p| - 1] == log[j - 1] && p[..|p| - 1] == log[..j - 1];
    if !SetsKey(log[j - 1], x) {
      KeyUntilSet(log, i, j - 1, x);
    }
  }

  lemma KeyJustSet(log: seq<Event>, i: nat, x: AccountId)
    requires i < |log| && SetsKey(log[i], x)
    ensures KeyAfter(log[..i + 1], x) == Some(KeySet(log[i]))
  {
    assert log[..i + 1] == log[..i] + [log[i]];
    FoldsSnoc(log[..i], log[i], x);
  }

  lemma ReachableFits(u: Setup, w: World)
    requires u.Wired() && Reachable(u, w)
    ensures SignerInv(w)
  {
    var steps: seq<Step> :| Run(u, Start, steps) == w;
    RunFits(u, steps);
  }

  /**
   Sale and recovery serialize: between a recovery freeze and the swap or unfreeze that ends it, the
   wallet is neither sold nor used to sign.
   */
  lemma RecoveryExcludesSaleAndSigning(u: Setup, w: World, i: nat, j: nat, x: AccountId)
    requires u.Wired() && Reachable(u, w)
    requires var log := w.log;
      && i < j < |log|
      && log[i].Froze? && log[i].wallet == x
      && (log[j].Signed? || log[j].MarketSwapped?) && log[j].wallet == x
    ensures var log := w.log;
      exists k :: i < k < j && Releases(log[k], x)
  {
    var log := w.log;
    ReachableFits(u, w);
    assert Fits(log[..j], log[j]);
    HeldUntilReleased(log, i, j, x);
  }

  /** After a sale moved the key away from `old`, a policy bound to `old` neither freezes nor swaps until the key is `old` again. */
  lemma StalePolicyIsHarmless(u: Setup, w: World, i: nat, j: nat, x: AccountId, old': PublicKey)
    requires u.Wired() && Reachable(u, w)
    requires var log := w.log;
      && i < j < |log|
      && log[i].MarketSwapped? && log[i].wallet == x && log[i].from == old' && log[i].to != old'
      && (log[j] == Froze(x, old') || (log[j].RecoverySwapped? && log[j].wallet == x && log[j].from == old'))
    ensures var log := w.log;
      exists k :: i < k < j && SetsKey(log[k], x) && KeySet(log[k]) == old'
  {
    ReachableFits(u, w);
    assert Fits(w.log[..j], w.log[j]);
    KeyJustSet(w.log, i, x);
    KeyUntilSet(w.log, i + 1, j, x);
  }

  /** A self-freeze stands until recovery rotates the key: no signature, no sale, no unfreeze, and the same key. */
  lemma SelfFreezeHoldsUntilRecoverySwap(u: Setup, w: World, i: nat, j: nat, x: AccountId)
    requires u.Wired() && Reachable(u, w)
    requires var log := w.log;
      && i < j <= |log|
      && log[i] == SelfFroze(x)
      && (forall k :: i < k < j ==> !(log[k].RecoverySwapped? && log[k].wallet == x))
    ensures var log := w.log;
      && KeyAfter(log[..j], x) == KeyAfter(log[..i], x)
      && forall k :: i < k < j ==>
           !((log[k].Signed? || log[k].MarketSwapped? || log[k].Unfroze?) && log[k].wallet == x)
  {
    var log := w.log;
    ReachableFits(u, w);
    forall k | i < k < j
      ensures !((log[k].Signed? || log[k].MarketSwapped? || log[k].Unfroze? || log[k].Installed?) && log[k].wallet == x)
    {
      assert Fits(log[..k], log[k]);
      if !HaltedAfter(log[..k], x) {
        HaltedUntilSwapped(log, i, k, x);
      }
    }
    if KeyAfter(log[..j], x) != KeyAfter(log[..i], x) {
      KeyUntilSet(log, i, j, x);
    }
  }

  /** Whatever is asked of it, the active signer never has a key-adding transaction signed. */
  lemma NeverSignsAddKey(u: Setup, w: World, i: nat, h: Tx.Header, newKey: PublicKey)
    requires u.Wired() && Reachable(u, w) && i < |w.log| && w.log[i].Signed?
    requires h.Valid() && |h.signer| <= 64
    ensures w.log[i].payload != Tx.EncodeAddKey(h, newKey)
  {
    ReachableFits(u, w);
    var x, payload := w.log[i].wallet, w.log[i].payload;
    assert Fits(w.log[..i], w.log[i]);
    if h': Tx.Header, actions :|
        h'.Valid() && h'.signer == x && Tx.ValidActions(actions) && payload == Tx.EncodeTransaction(h', actions) {
      Tx.BuiltIsNeverAddKey(h', actions, h, newKey);
    } else {
      var m: Nep413.Message :| m.Valid() && payload == Nep413.EncodePayload(m);
      Nep413.PayloadIsNeverATransaction(m, h, [], newKey);
    }
  }

  lemma StepKeepsMpcKey(u: Setup, w: World, step: Step, x: AccountId)
    requires x in w.signers
    ensures x in Apply(u, w, step).signers
    ensures Apply(u, w, step).signers[x].mpcPublicKey == w.signers[x].mpcPublicKey
  {}

  /** From any state, over any run, an installed wallet keeps its MPC key. */
  lemma {:induction false} MpcKeyIsForever(u: Setup, w: World, steps: seq<Step>, x: AccountId)
    requires x in w.signers
    ensures x in Run(u, w, steps).signers
    ensures Run(u, w, steps).signers[x].mpcPublicKey == w.signers[x].mpcPublicKey
  {
    if steps != [] {
      MpcKeyIsForever(u, w, steps[..|steps| - 1], x);
      StepKeepsMpcKey(u, Run(u, w, steps[..|steps| - 1]), steps[|steps| - 1], x);
    }
  }
}
