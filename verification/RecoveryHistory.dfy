/** Where every recovery key change comes from, and why no round or message is used twice. */
module RecoveryHistory {
  import opened Types
  import opened Custody
  import opened CustodyInvariant
  import Q = Quorum
  import R = RecoveryRules
  import Msg = RecoveryMessages
  import Tx = Transactions

  // ----- accepted requests and rounds -----

  ghost function Requests(log: seq<Event>, a: AccountId): nat {
    if log == [] then 0
    else
      var e := log[|log| - 1];
      Requests(log[..|log| - 1], a) + if e.RequestAccepted? && e.account == a then 1 else 0
  }

  lemma RequestsSnoc(log: seq<Event>, e: Event, a: AccountId)
    ensures Requests(log + [e], a) == Requests(log, a) + if e.RequestAccepted? && e.account == a then 1 else 0
  {
    assert (log + [e])[..|log|] == log;
  }

  // ----- what a verdict and a swap must rest on -----

  predicate IsRequest(e: Event, a: AccountId, key: PublicKey, round: nat) {
    e.RequestAccepted? && e.account == a && e.newOwner == key && e.round == round
  }

  predicate IsApproval(e: Event, a: AccountId, key: PublicKey, round: nat) {
    e.VerdictAccepted? && e.account == a && e.newOwner == key && e.round == round && e.silent
  }

  predicate WaitedLongEnough(request: Event, verdict: Event)
    requires request.RequestAccepted? && verdict.VerdictAccepted?
  {
    && request.timelockSecs >= R.MIN_TIMELOCK_SECS
    && verdict.at >= request.at + request.timelockSecs * R.NS_PER_SEC
  }

  /** A request at `j` and an approval at `k` of this account, key and round, with the timelock between them. */
  ghost predicate Rests(log: seq<Event>, j: int, k: int, a: AccountId, key: PublicKey, round: nat) {
    && 0 <= j < k < |log|
    && IsRequest(log[j], a, key, round)
    && IsApproval(log[k], a, key, round)
    && WaitedLongEnough(log[j], log[k])
  }

  ghost predicate Justified(log: seq<Event>, a: AccountId, key: PublicKey, round: nat) {
    exists j, k :: Rests(log, j, k, a, key, round)
  }

  lemma JustifiedSnoc(log: seq<Event>, events: seq<Event>, a: AccountId, key: PublicKey, round: nat)
    requires Justified(log, a, key, round)
    ensures Justified(log + events, a, key, round)
  {
    var j, k :| Rests(log, j, k, a, key, round);
    assert Rests(log + events, j, k, a, key, round);
  }

  // ----- the invariant -----

  /** Every accepted request and verdict carried valid signatures over its own message. */
  predicate Signatures(u: Setup, e: Event) {
    match e
    case RequestAccepted(a, key, round, _, _, attestationKey, attestation) =>
      && R.SubjectOf(u.recovery, a, key, round).Valid()
      && R.Verifies(u.verify, Msg.RequestMessage(R.SubjectOf(u.recovery, a, key, round)), attestation, attestationKey)
    case VerdictAccepted(a, key, round, silent, _, signatures) =>
      && R.SubjectOf(u.recovery, a, key, round).Valid()
      && Q.HasQuorum(R.Checked(u.verify), Msg.VerdictMessage(R.SubjectOf(u.recovery, a, key, round), silent), signatures,
                     u.recovery.watchers, u.recovery.threshold)
    case _ => true
  }

  /** The bytes are a transaction by which the account adds the key to itself. */
  ghost predicate AddsKey(payload: Bytes, a: AccountId, key: PublicKey) {
    exists mpcKey, nonce, blockHash :: payload == Tx.EncodeAddKey(Tx.Header(a, mpcKey, nonce, a, blockHash), key)
  }

  /** What had to be in the history before the event. */
  ghost predicate Earned(u: Setup, before: seq<Event>, e: Event) {
    && Signatures(u, e)
    && match e
       case RequestAccepted(a, _, round, _, _, _, _) => round == Requests(before, a)
       case RecoverySwapped(a, _, to, round) => Justified(before, a, to, round)
       case NativeSignRequested(a, key, round, payload) => Justified(before, a, key, round) && AddsKey(payload, a, key)
       case _ => true
  }

  ghost predicate AllEarned(u: Setup, log: seq<Event>) {
    forall i :: 0 <= i < |log| ==> Earned(u, log[..i], log[i])
  }

  ghost predicate RoundsCount(w: World) {
    forall a :: w.recovery.RoundOf(a) == Requests(w.log, a)
  }

  /** The request an open round came from, with the policy's own timelock. */
  ghost predicate Opened(w: World, a: AccountId, j: int)
    requires a in w.recovery.accounts && w.recovery.accounts[a].phase.Requested?
  {
    var entry := w.recovery.accounts[a];
    && 0 <= j < |w.log|
    && IsRequest(w.log[j], a, entry.phase.newOwner, entry.phase.round)
    && w.log[j].at == entry.phase.requestedAt
    && w.log[j].timelockSecs == entry.policy.timelockSecs
  }

  ghost predicate PhaseRests(w: World, a: AccountId)
    requires a in w.recovery.accounts
  {
    var phase := w.recovery.accounts[a].phase;
    match phase
    case Idle => true
    case Requested(key, round, _) => IsAccountId(a) && key.Valid() && round < U64_LIMIT && exists j :: Opened(w, a, j)
    case _ => Justified(w.log, a, phase.newOwner, phase.round)
  }

  ghost predicate PhasesRest(w: World) {
    forall a :: a in w.recovery.accounts ==> PhaseRests(w, a)
  }

  /** A verdict closes the Requested phase of its round for good. */
  ghost predicate VerdictSpent(w: World, e: Event)
    requires e.VerdictAccepted?
  {
    && e.round < w.recovery.RoundOf(e.account)
    && (e.account in w.recovery.accounts && w.recovery.accounts[e.account].phase.Requested? ==>
          w.recovery.accounts[e.account].phase.round != e.round)
  }

  /** Receipt `i` is the callback of a swap that worked. */
  predicate SwapDone(w: World, a: AccountId, i: nat) {
    i in w.mail && w.mail[i].RecoveryReply? && w.mail[i].account == a && w.mail[i].call.SwapOwner? &&
    w.mail[i].result == Returned(true)
  }

  /** A swap ends its round: only its own callback is still to come. */
  ghost predicate SwapSpent(w: World, e: Event)
    requires e.RecoverySwapped?
  {
    var a := e.wallet;
    && e.round < w.recovery.RoundOf(a)
    && (a in w.recovery.accounts && !w.recovery.accounts[a].phase.Idle? && w.recovery.accounts[a].phase.round == e.round ==>
          exists i :: SwapDone(w, a, i))
  }

  ghost predicate AllSpent(w: World) {
    forall i :: 0 <= i < |w.log| ==>
      (w.log[i].VerdictAccepted? ==> VerdictSpent(w, w.log[i])) && (w.log[i].RecoverySwapped? ==> SwapSpent(w, w.log[i]))
  }

  ghost predicate Distinct(log: seq<Event>) {
    forall i, j :: 0 <= i < j < |log| ==>
      && (log[i].VerdictAccepted? && log[j].VerdictAccepted? && log[i].account == log[j].account ==> log[i].round != log[j].round)
      && (log[i].RecoverySwapped? && log[j].RecoverySwapped? && log[i].wallet == log[j].wallet ==> log[i].round != log[j].round)
  }

  ghost predicate History(u: Setup, w: World) {
    AllEarned(u, w.log) && RoundsCount(w) && PhasesRest(w) && AllSpent(w) && Distinct(w.log)
  }

  // ----- growing the history -----

  lemma AllEarnedSnoc(u: Setup, log: seq<Event>, e: Event)
    requires AllEarned(u, log) && Earned(u, log, e)
    ensures AllEarned(u, log + [e])
  {
    var log' := log + [e];
    forall i | 0 <= i < |log'| ensures Earned(u, log'[..i], log'[i]) {
      if i < |log| {
        assert log'[..i] == log[..i];
      } else {
        assert log'[..i] == log;
      }
    }
  }

  lemma DistinctSnoc(w: World, e: Event)
    requires Distinct(w.log) && AllSpent(w)
    requires e.VerdictAccepted? ==>
               e.account in w.recovery.accounts && w.recovery.accounts[e.account].phase.Requested? &&
               w.recovery.accounts[e.account].phase.round == e.round
    requires e.RecoverySwapped? ==>
               e.wallet in w.recovery.accounts && !w.recovery.accounts[e.wallet].phase.Idle? &&
               w.recovery.accounts[e.wallet].phase.round == e.round && !exists i :: SwapDone(w, e.wallet, i)
    ensures Distinct(w.log + [e])
  {
    forall i | 0 <= i < |w.log|
      ensures w.log[i].VerdictAccepted? ==> VerdictSpent(w, w.log[i])
      ensures w.log[i].RecoverySwapped? ==> SwapSpent(w, w.log[i])
    {}
  }

  // ----- which steps touch what -----

  /** A phase ended, stayed, or moved within its approved round. */
  predicate Carries(p: R.Phase, q: R.Phase) {
    || q.Idle?
    || q == p
    || ((p.Approving? || p.Approved? || p.Resolving?) && (q.Approved? || q.Resolving?) &&
        q.newOwner == p.newOwner && q.round == p.round)
  }

  /** Nothing new in the history; rounds are as before and phases only carry over. */
  ghost predicate Carried(w: World, w': World) {
    && w'.log == w.log
    && (forall a :: w'.recovery.RoundOf(a) == w.recovery.RoundOf(a))
    && (forall a :: a in w'.recovery.accounts && !w'.recovery.accounts[a].phase.Idle? ==>
          && a in w.recovery.accounts
          && Carries(w.recovery.accounts[a].phase, w'.recovery.accounts[a].phase)
          && w'.recovery.accounts[a].policy.timelockSecs == w.recovery.accounts[a].policy.timelockSecs)
    && (forall a, i :: a in w'.recovery.accounts && !w'.recovery.accounts[a].phase.Idle? && SwapDone(w, a, i) ==>
          SwapDone(w', a, i))
  }

  lemma CarriedHistory(u: Setup, w: World, w': World)
    requires History(u, w) && Carried(w, w')
    ensures History(u, w')
  {
    forall a | a in w'.recovery.accounts ensures PhaseRests(w', a) {
      if !w'.recovery.accounts[a].phase.Idle? {
        assert PhaseRests(w, a);
        if w'.recovery.accounts[a].phase.Requested? {
          var j :| Opened(w, a, j);
          assert Opened(w', a, j);
        }
      }
    }
    forall i | 0 <= i < |w'.log|
      ensures w'.log[i].VerdictAccepted? ==> VerdictSpent(w', w'.log[i])
      ensures w'.log[i].RecoverySwapped? ==> SwapSpent(w', w'.log[i])
    {
      var e := w.log[i];
      if e.VerdictAccepted? { assert VerdictSpent(w, e); }
      if e.RecoverySwapped? { CarriedSwap(w, w', e); }
    }
  }

  lemma CarriedSwap(w: World, w': World, e: Event)
    requires e.RecoverySwapped? && SwapSpent(w, e) && Carried(w, w')
    ensures SwapSpent(w', e)
  {
    var a := e.wallet;
    if a in w'.recovery.accounts && !w'.recovery.accounts[a].phase.Idle? && w'.recovery.accounts[a].phase.round == e.round {
      var k :| SwapDone(w, a, k);
      assert SwapDone(w', a, k);
    }
  }

  predicate AboutSigner(e: Event) {
    e.Froze? || e.Unfroze? || e.SelfFroze? || e.MarketSwapped? || e.Installed? || e.Signed?
  }

  /** One more event, recovery untouched, and no swap callback lost. */
  lemma SignerEvent(u: Setup, w: World, w': World, e: Event)
    requires Inv(u, w) && History(u, w) && w'.log == w.log + [e] && w'.recovery == w.recovery
    requires forall a, i :: SwapDone(w, a, i) ==> SwapDone(w', a, i)
    requires AboutSigner(e) || (e.RecoverySwapped? && Justified(w.log, e.wallet, e.to, e.round) &&
               e.wallet in w.recovery.accounts && !w.recovery.accounts[e.wallet].phase.Idle? &&
               w.recovery.accounts[e.wallet].phase.round == e.round &&
               (!exists i :: SwapDone(w, e.wallet, i)) && exists i :: SwapDone(w', e.wallet, i))
    ensures History(u, w')
  {
    AllEarnedSnoc(u, w.log, e);
    DistinctSnoc(w, e);
    forall a ensures w'.recovery.RoundOf(a) == Requests(w'.log, a) {
      RequestsSnoc(w.log, e, a);
    }
    forall a | a in w'.recovery.accounts ensures PhaseRests(w', a) {
      PhaseSurvives(w, w', a, [e]);
    }
    forall i | 0 <= i < |w'.log|
      ensures w'.log[i].VerdictAccepted? ==> VerdictSpent(w', w'.log[i])
      ensures w'.log[i].RecoverySwapped? ==> SwapSpent(w', w'.log[i])
    {
      if i < |w.log| {
        assert w'.log[i] == w.log[i];
        if w.log[i].RecoverySwapped? { SwapSurvives(w, w', w.log[i]); }
        if w.log[i].VerdictAccepted? { assert VerdictSpent(w, w.log[i]); }
      } else if e.RecoverySwapped? {
        assert WellFormed(w.recovery.accounts[e.wallet]);
      }
    }
  }

  lemma SwapSurvives(w: World, w': World, e: Event)
    requires e.RecoverySwapped? && SwapSpent(w, e) && w'.recovery == w.recovery
    requires forall a, i :: SwapDone(w, a, i) ==> SwapDone(w', a, i)
    ensures SwapSpent(w', e)
  {
    var a := e.wallet;
    if a in w.recovery.accounts && !w.recovery.accounts[a].phase.Idle? && w.recovery.accounts[a].phase.round == e.round {
      var k :| SwapDone(w, a, k);
      assert SwapDone(w', a, k);
    }
  }

  lemma PhaseSurvives(w: World, w': World, a: AccountId, events: seq<Event>)
    requires a in w.recovery.accounts && PhaseRests(w, a)
    requires a in w'.recovery.accounts && w'.recovery.accounts[a] == w.recovery.accounts[a]
    requires w'.log == w.log + events
    ensures PhaseRests(w', a)
  {
    var phase := w.recovery.accounts[a].phase;
    if phase.Requested? {
      var j :| Opened(w, a, j);
      assert Opened(w', a, j);
    } else if !phase.Idle? {
      JustifiedSnoc(w.log, events, a, phase.newOwner, phase.round);
    }
  }

  // ----- requests -----

  /** `a` went from Idle to Requested, its round was counted, and nothing else moved. */
  ghost predicate RequestMade(u: Setup, w: World, w': World, a: AccountId, e: Event) {
    && e.RequestAccepted? && e.account == a && Signatures(u, e)
    && IsAccountId(a)
    && a in w.recovery.accounts && w.recovery.accounts[a].phase.Idle? && e.round == w.recovery.accounts[a].round
    && e.timelockSecs == w.recovery.accounts[a].policy.timelockSecs
    && w'.log == w.log + [e] && w'.mail == w.mail
    && w'.recovery.roundFloor == w.recovery.roundFloor
    && w'.recovery.accounts ==
       w.recovery.accounts[a := w.recovery.accounts[a].(phase := R.Requested(e.newOwner, e.round, e.at), round := e.round + 1)]
  }

  lemma RequestEffect(u: Setup, w: World, step: Step)
    requires u.Wired() && step.RequestRecovery? && Apply(u, w, step) != w
    ensures var w' := Apply(u, w, step);
      |w'.log| == |w.log| + 1 && RequestMade(u, w, w', step.account, w'.log[|w.log|])
  {}

  lemma RequestRecorded(u: Setup, w: World, w': World, a: AccountId, e: Event)
    requires History(u, w) && RequestMade(u, w, w', a, e)
    ensures History(u, w')
  {
    assert w.recovery.RoundOf(a) == Requests(w.log, a);
    AllEarnedSnoc(u, w.log, e);
    DistinctSnoc(w, e);
    forall b ensures w'.recovery.RoundOf(b) == Requests(w'.log, b) {
      RequestsSnoc(w.log, e, b);
      assert w.recovery.RoundOf(b) == Requests(w.log, b);
    }
    RequestPhases(u, w, w', a, e);
    RequestSpent(u, w, w', a, e);
  }

  lemma RequestPhases(u: Setup, w: World, w': World, a: AccountId, e: Event)
    requires PhasesRest(w) && RequestMade(u, w, w', a, e)
    ensures PhasesRest(w')
  {
    forall b | b in w'.recovery.accounts ensures PhaseRests(w', b) {
      if b == a {
        assert Opened(w', a, |w.log|);
      } else {
        PhaseSurvives(w, w', b, [e]);
      }
    }
  }

  lemma RequestSpent(u: Setup, w: World, w': World, a: AccountId, e: Event)
    requires AllSpent(w) && RequestMade(u, w, w', a, e)
    ensures AllSpent(w')
  {
    forall i | 0 <= i < |w'.log|
      ensures w'.log[i].VerdictAccepted? ==> VerdictSpent(w', w'.log[i])
      ensures w'.log[i].RecoverySwapped? ==> SwapSpent(w', w'.log[i])
    {
      if i < |w.log| {
        assert w'.log[i] == w.log[i];
        if w.log[i].VerdictAccepted? { assert VerdictSpent(w, w.log[i]); }
        if w.log[i].RecoverySwapped? { SpentElsewhere(w, w', w.log[i], a); }
      }
    }
  }

  /** A swap stays spent when another account moves, or its own moves to a later round. */
  lemma SpentElsewhere(w: World, w': World, e: Event, a: AccountId)
    requires e.RecoverySwapped? && SwapSpent(w, e)
    requires w'.recovery.RoundOf(e.wallet) >= w.recovery.RoundOf(e.wallet)
    requires forall b, i :: SwapDone(w, b, i) ==> SwapDone(w', b, i)
    requires e.wallet != a ==>
               (e.wallet in w'.recovery.accounts <==> e.wallet in w.recovery.accounts) &&
               (e.wallet in w.recovery.accounts ==> w'.recovery.accounts[e.wallet] == w.recovery.accounts[e.wallet])
    requires e.wallet == a && a in w'.recovery.accounts && !w'.recovery.accounts[a].phase.Idle? ==>
               w'.recovery.accounts[a].phase.round != e.round ||
               (a in w.recovery.accounts && !w.recovery.accounts[a].phase.Idle? &&
                w.recovery.accounts[a].phase.round == e.round)
    ensures SwapSpent(w', e)
  {
    var b := e.wallet;
    if b in w'.recovery.accounts && !w'.recovery.accounts[b].phase.Idle? && w'.recovery.accounts[b].phase.round == e.round {
      var k :| SwapDone(w, b, k);
      assert SwapDone(w', b, k);
    }
  }

  // ----- verdicts -----

  /** `a` left Requested on a quorum's word after its timelock, and nothing else moved except new mail. */
  ghost predicate VerdictMade(u: Setup, w: World, w': World, a: AccountId, e: Event) {
    && a in w.recovery.accounts && w.recovery.accounts[a].phase.Requested?
    && var entry := w.recovery.accounts[a];
    && e.VerdictAccepted? && e.account == a && Signatures(u, e)
    && e.newOwner == entry.phase.newOwner && e.round == entry.phase.round
    && e.at >= entry.phase.requestedAt + entry.policy.timelockSecs * R.NS_PER_SEC
    && w'.log == w.log + [e]
    && (forall i :: i in w.mail ==> i in w'.mail && w'.mail[i] == w.mail[i])
    && w'.recovery.roundFloor == w.recovery.roundFloor
    && a in w'.recovery.accounts
    && w'.recovery.accounts == w.recovery.accounts[a := entry.(phase := w'.recovery.accounts[a].phase)]
    && var phase := w'.recovery.accounts[a].phase;
       phase.Idle? ||
       (e.silent && (phase == R.Approving(e.newOwner, e.round) || phase == R.Approved(e.newOwner, e.round)))
  }

  lemma VerdictEffect(u: Setup, w: World, step: Step)
    requires Inv(u, w) && History(u, w) && u.Wired() && step.SubmitVerdict? && Apply(u, w, step) != w
    ensures var w' := Apply(u, w, step);
      |w'.log| == |w.log| + 1 && VerdictMade(u, w, w', step.account, w'.log[|w.log|])
  {
    assert PhaseRests(w, step.account);
  }

  lemma VerdictJustifies(u: Setup, w: World, w': World, a: AccountId, e: Event)
    requires Inv(u, w) && History(u, w) && VerdictMade(u, w, w', a, e) && e.silent
    ensures Justified(w'.log, a, e.newOwner, e.round)
  {
    assert PhaseRests(w, a) && WellFormed(w.recovery.accounts[a]);
    var j :| Opened(w, a, j);
    assert Rests(w'.log, j, |w.log|, a, e.newOwner, e.round);
  }

  lemma VerdictSpends(u: Setup, w: World, w': World, a: AccountId, e: Event)
    requires Inv(u, w) && History(u, w) && VerdictMade(u, w, w', a, e)
    ensures AllSpent(w')
  {
    assert WellFormed(w.recovery.accounts[a]);
    MailOnlyGrows(w, w');
    forall i | 0 <= i < |w'.log|
      ensures w'.log[i].VerdictAccepted? ==> VerdictSpent(w', w'.log[i])
      ensures w'.log[i].RecoverySwapped? ==> SwapSpent(w', w'.log[i])
    {
      if i < |w.log| {
        assert w'.log[i] == w.log[i];
        if w.log[i].VerdictAccepted? { assert VerdictSpent(w, w.log[i]); }
        if w.log[i].RecoverySwapped? { SpentElsewhere(w, w', w.log[i], a); }
      }
    }
  }

  lemma VerdictRecorded(u: Setup, w: World, w': World, a: AccountId, e: Event)
    requires Inv(u, w) && History(u, w) && VerdictMade(u, w, w', a, e)
    ensures History(u, w')
  {
    AllEarnedSnoc(u, w.log, e);
    DistinctSnoc(w, e);
    forall b ensures w'.recovery.RoundOf(b) == Requests(w'.log, b) {
      RequestsSnoc(w.log, e, b);
      assert w.recovery.RoundOf(b) == Requests(w.log, b);
    }
    if e.silent { VerdictJustifies(u, w, w', a, e); }
    forall b | b in w'.recovery.accounts ensures PhaseRests(w', b) {
      if b != a { PhaseSurvives(w, w', b, [e]); }
    }
    VerdictSpends(u, w, w', a, e);
  }

  lemma MailOnlyGrows(w: World, w': World)
    requires forall i :: i in w.mail ==> i in w'.mail && w'.mail[i] == w.mail[i]
    ensures forall b, i :: SwapDone(w, b, i) ==> SwapDone(w', b, i)
  {}

  // ----- finalizing -----

  lemma FinalizeHistory(u: Setup, w: World, step: Step)
    requires Inv(u, w) && History(u, w) && step.FinalizeRecovery?
    ensures History(u, Apply(u, w, step))
  {
    var w' := Apply(u, w, step);
    if w' != w {
      assert PhaseRests(w, step.account);
      FinalizeRecords(u, w, step);
      FinalizeCarries(u, w, step);
      var mid := w.(log := w'.log);
      if |w'.log| > |w.log| {
        NativeRecorded(u, w, mid, w'.log[|w.log|]);
      } else {
        assert mid == w;
      }
      CarriedHistory(u, mid, w');
    }
  }

  lemma FinalizeRecords(u: Setup, w: World, step: Step)
    requires step.FinalizeRecovery? && Apply(u, w, step) != w
    ensures var w' := Apply(u, w, step);
      && step.account in w.recovery.accounts && w.recovery.accounts[step.account].phase.Approved?
      && var phase := w.recovery.accounts[step.account].phase;
         w'.log == w.log ||
         (|w'.log| == |w.log| + 1 && w'.log == w.log + [w'.log[|w.log|]] && w'.log[|w.log|].NativeSignRequested? &&
          w'.log[|w.log|].account == step.account &&
          w'.log[|w.log|].newOwner == phase.newOwner && w'.log[|w.log|].round == phase.round &&
          AddsKey(w'.log[|w.log|].payload, step.account, phase.newOwner))
  {}

  lemma FinalizeCarries(u: Setup, w: World, step: Step)
    requires FreshIds(w) && step.FinalizeRecovery? && Apply(u, w, step) != w
    ensures Carried(w.(log := Apply(u, w, step).log), Apply(u, w, step))
  {
    MailOnlyGrows(w, Apply(u, w, step));
  }

  lemma NativeRecorded(u: Setup, w: World, w': World, e: Event)
    requires History(u, w) && w' == w.(log := w.log + [e])
    requires e.NativeSignRequested? && Justified(w.log, e.account, e.newOwner, e.round) && AddsKey(e.payload, e.account, e.newOwner)
    ensures History(u, w')
  {
    AllEarnedSnoc(u, w.log, e);
    DistinctSnoc(w, e);
    forall a ensures w'.recovery.RoundOf(a) == Requests(w'.log, a) {
      RequestsSnoc(w.log, e, a);
    }
    forall a | a in w'.recovery.accounts ensures PhaseRests(w', a) {
      PhaseSurvives(w, w', a, [e]);
    }
    forall i | 0 <= i < |w'.log|
      ensures w'.log[i].VerdictAccepted? ==> VerdictSpent(w', w'.log[i])
      ensures w'.log[i].RecoverySwapped? ==> SwapSpent(w', w'.log[i])
    {
      if i < |w.log| {
        assert w'.log[i] == w.log[i];
        if w.log[i].RecoverySwapped? { SwapSurvives(w, w', w.log[i]); }
        if w.log[i].VerdictAccepted? { assert VerdictSpent(w, w.log[i]); }
      }
    }
  }

  // ----- receipts and callbacks -----

  /** A recovery receipt ran: it became its reply, recovery is untouched, and at most one event was added. */
  ghost predicate CallMade(u: Setup, w: World, w': World, id: nat) {
    && id in w.mail && w.mail[id].RecoveryCall?
    && var m := w.mail[id];
    && w'.recovery == w.recovery && id in w'.mail && w'.mail == w.mail[id := w'.mail[id]]
    && w'.mail[id].RecoveryReply? && w'.mail[id].account == m.account && w'.mail[id].call == m.call
    && (w'.log == w.log ||
        (|w'.log| == |w.log| + 1 && w'.log == w.log + [w'.log[|w.log|]] &&
         var e := w'.log[|w.log|];
         AboutSigner(e) ||
         (e.RecoverySwapped? && e.wallet == m.account && e.round == m.round && m.call.SwapOwner? && e.to == m.call.newOwner &&
          w'.mail[id].result == Returned(true))))
  }

  lemma CallEffect(u: Setup, w: World, id: nat, fate: Fate)
    requires id in w.mail && w.mail[id].RecoveryCall?
    ensures CallMade(u, w, DoDeliver(u, w, id, fate), id)
  {}

  lemma CallHistory(u: Setup, w: World, w': World, id: nat)
    requires Inv(u, w) && History(u, w) && CallMade(u, w, w', id)
    ensures History(u, w')
  {
    var m := w.mail[id];
    var a := m.account;
    assert Expected(u, w, m) && PhaseRests(w, a);
    assert forall b, i :: SwapDone(w, b, i) ==> SwapDone(w', b, i);
    if w'.log == w.log {
      CarriedHistory(u, w, w');
    } else {
      var e := w'.log[|w.log|];
      if e.RecoverySwapped? {
        assert !exists i :: SwapDone(w, a, i);
        assert SwapDone(w', a, id);
      }
      SignerEvent(u, w, w', e);
    }
  }

  lemma ReplyEffect(u: Setup, w: World, id: nat)
    requires Inv(u, w) && id in w.mail && w.mail[id].RecoveryReply?
    ensures Carried(w, DoDeliver(u, w, id, Works))
  {
    var w' := DoDeliver(u, w, id, Works);
    var m := w.mail[id];
    assert Expected(u, w, m);
    assert w'.recovery.accounts == w.recovery.accounts[m.account := w'.recovery.accounts[m.account]];
    forall b, i | b in w'.recovery.accounts && !w'.recovery.accounts[b].phase.Idle? && SwapDone(w, b, i) ensures SwapDone(w', b, i) {
      assert i != id;
    }
  }

  /** Mail of the market side: recovery may be reset, and at most a sale was recorded. */
  lemma OtherMailEffect(u: Setup, w: World, id: nat, fate: Fate)
    requires id in w.mail && !w.mail[id].Recovery()
    ensures var w' := DoDeliver(u, w, id, fate);
      && (forall b, i :: SwapDone(w, b, i) ==> SwapDone(w', b, i))
      && (Carried(w, w') ||
          (w'.recovery == w.recovery && |w'.log| == |w.log| + 1 && w'.log == w.log + [w'.log[|w.log|]] &&
           AboutSigner(w'.log[|w.log|])))
  {
    assert w.log + [] == w.log;
  }

  lemma DeliverHistory(u: Setup, w: World, id: nat, fate: Fate)
    requires Inv(u, w) && History(u, w) && id in w.mail
    ensures History(u, DoDeliver(u, w, id, fate))
  {
    var w' := DoDeliver(u, w, id, fate);
    if w.mail[id].RecoveryCall? {
      CallEffect(u, w, id, fate);
      CallHistory(u, w, w', id);
    } else if w.mail[id].RecoveryReply? {
      ReplyEffect(u, w, id);
      CarriedHistory(u, w, w');
    } else {
      OtherMailEffect(u, w, id, fate);
      if Carried(w, w') {
        CarriedHistory(u, w, w');
      } else {
        SignerEvent(u, w, w', w'.log[|w.log|]);
      }
    }
  }

  predicate QuietStep(step: Step) {
    step.Tick? || step.InstallPolicy? || step.AbortRecovery? || step.ClaimNativeFinalized? || step.ForceTransfer?
  }

  lemma QuietStepCarries(u: Setup, w: World, step: Step)
    requires FreshIds(w) && QuietStep(step) && Apply(u, w, step) != w
    ensures Carried(w, Apply(u, w, step))
  {
    var w' := Apply(u, w, step);
    assert w.log + [] == w.log;
    MailOnlyGrows(w, w');
  }

  lemma QuietStepHistory(u: Setup, w: World, step: Step)
    requires Inv(u, w) && History(u, w) && QuietStep(step)
    ensures History(u, Apply(u, w, step))
  {
    var w' := Apply(u, w, step);
    if w' != w {
      QuietStepCarries(u, w, step);
      CarriedHistory(u, w, w');
    }
  }

  lemma SignerStepHistory(u: Setup, w: World, step: Step)
    requires Inv(u, w) && History(u, w)
    requires step.InstallSigner? || step.SelfFreeze? || step.SubmitSigned? || step.AuthoritySign?
    ensures History(u, Apply(u, w, step))
  {
    var w' := Apply(u, w, step);
    if w' != w {
      MailOnlyGrows(w, w');
      SignerEvent(u, w, w', w'.log[|w.log|]);
    }
  }

  lemma StepHistory(u: Setup, w: World, step: Step)
    requires Inv(u, w) && History(u, w) && u.Wired()
    ensures History(u, Apply(u, w, step))
  {
    match step
    case RequestRecovery(_, _, _, _) =>
      var w' := Apply(u, w, step);
      if w' != w {
        RequestEffect(u, w, step);
        RequestRecorded(u, w, w', step.account, w'.log[|w.log|]);
      }
    case SubmitVerdict(_, _, _) =>
      var w' := Apply(u, w, step);
      if w' != w {
        VerdictEffect(u, w, step);
        VerdictRecorded(u, w, w', step.account, w'.log[|w.log|]);
      }
    case FinalizeRecovery(_, _, _, _) => FinalizeHistory(u, w, step);
    case Deliver(id, fate) =>
      if id in w.mail { DeliverHistory(u, w, id, fate); }
    case InstallSigner(_, _, _, _, _) => SignerStepHistory(u, w, step);
    case SelfFreeze(_, _, _) => SignerStepHistory(u, w, step);
    case SubmitSigned(_, _, _, _, _) => SignerStepHistory(u, w, step);
    case AuthoritySign(_, _, _) => SignerStepHistory(u, w, step);
    case _ => QuietStepHistory(u, w, step);
  }

  lemma {:induction false} RunHistory(u: Setup, steps: seq<Step>)
    requires u.Wired()
    ensures History(u, Run(u, Start, steps))
  {
    if steps == [] {
      assert Requests([], []) == 0;
    } else {
      var before := steps[..|steps| - 1];
      RunHistory(u, before);
      RunKeeps(u, before);
      StepHistory(u, Run(u, Start, before), steps[|steps| - 1]);
    }
  }
}
