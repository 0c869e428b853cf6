/**
 Re-rents and reclaims change a wallet's key through the same chain as a sale, but their callbacks
 read only whether the receipt succeeded, and hos-extension turns a failed swap into a success that
 carries false. So the registry books what the signer refused; here is exactly when.
 */
module MarketTransfers {
  import opened Types
  import opened RegistryTypes
  import opened RegistryRules
  import opened Market
  import opened MarketSolvency
  import opened MarketLedger
  import opened MarketSales
  import S = SignerRules

  predicate IsReRent(j: Job) {
    j.Chain? && j.task.ReRent?
  }

  // ----- at the signer -----

  /** What decides whether a transfer with no expected key goes through: a market swap needs an unfrozen wallet in the table. */
  predicate Transferable(s: S.Signers, key: Bytes) {
    key in s && s[key].frozen == S.Unfrozen
  }

  /** The signer step: the key becomes the asked-for one exactly under the guard, and otherwise the table is untouched. */
  lemma SignerDecides(u: S.Authorities, w0: World, steps: seq<Step>, w: World, id: nat, c: Choice)
    requires Fresh(w0) && w == Run(u, w0, steps) && id in w.jobs && (IsReRent(w.jobs[id]) || IsReclaim(w.jobs[id]))
    requires w.jobs[id].stage.AtSigner?
    ensures var w', key, newKey := AdvanceJob(u, w, id, c), w.jobs[id].task.key, w.jobs[id].stage.newKey;
      && id in w'.jobs && w'.jobs[id].Chain?
      && if c.ok && Transferable(w.signers, key) then
           && w'.jobs[id].stage == Stage.Swapped(newKey, Returned(true))
           && w'.moves == w.moves + [Move(id, key, Some(w.signers[key].publicKey), newKey)]
           && key in w'.signers && w'.signers[key].publicKey == newKey
         else
           && w'.jobs[id].stage == Stage.Swapped(newKey, Failed)
           && w'.moves == w.moves && w'.signers == w.signers
  {
    RunKeeps(u, w0, steps);
    assert Truthful(w.moves, id, w.jobs[id].task, w.jobs[id].stage);
    SwapDecides(u, w.signers, id, w.jobs[id].task, w.jobs[id].stage.newKey, c);
  }

  lemma SwapDecides(u: S.Authorities, s: S.Signers, id: nat, t: Task, newKey: PublicKey, c: Choice)
    requires newKey.Ed25519?
    ensures ChainStep(u, s, id, t.tla, t.key, AtSigner(newKey, None), c) ==
      if c.ok && Transferable(s, t.key) then
        (Stage.Swapped(newKey, Returned(true)),
         s[t.key := s[t.key].(publicKey := newKey, nonces := {}, freezeNonces := {}, frozen := S.Unfrozen)],
         [Move(id, t.key, Some(s[t.key].publicKey), newKey)])
      else (Stage.Swapped(newKey, Failed), s, [])
  {}

  /** Whatever the signer said, the extension answers with a success, so such a chain is always booked. */
  lemma ExtensionNeverFails(u: S.Authorities, w: World, id: nat, c: Choice)
    requires id in w.jobs && w.jobs[id].Chain? && w.jobs[id].stage.Swapped?
    ensures var stage, w' := w.jobs[id].stage, AdvanceJob(u, w, id, c);
      id in w'.jobs && w'.jobs[id] == Chain(w.jobs[id].task, Answered(stage.newKey, Returned(stage.result == Returned(true))))
  {}

  /** The signer has decided on the chain: what it will answer, if it has not ended. */
  ghost predicate Decided(w: World, id: nat, t: Task, newKey: PublicKey, swapped: bool) {
    && id < w.nextId
    && (id in w.jobs ==>
          && w.jobs[id].Chain? && w.jobs[id].task == t
          && var stage := w.jobs[id].stage;
          || stage == Answered(newKey, Returned(swapped))
          || (stage.Swapped? && stage.newKey == newKey && (stage.result == Returned(true) <==> swapped)))
  }

  lemma StepKeepsDecision(u: S.Authorities, w: World, step: Step, id: nat, t: Task, newKey: PublicKey, swapped: bool)
    requires Story(w) && Decided(w, id, t, newKey, swapped)
    ensures Decided(Apply(u, w, step), id, t, newKey, swapped)
  {
    if !step.Advance? {
      CallDispatches(u, w, step);
    } else if step.id in w.jobs {
      AdvanceProceeds(u, w, step.id, step.choice);
      if step.id == id && w.jobs[id].stage.Swapped? { ExtensionNeverFails(u, w, id, step.choice); }
    }
  }

  lemma SignerStepDecides(u: S.Authorities, w0: World, steps: seq<Step>, w: World, id: nat, c: Choice)
    requires Fresh(w0) && w == Run(u, w0, steps) && id in w.jobs && (IsReRent(w.jobs[id]) || IsReclaim(w.jobs[id]))
    requires w.jobs[id].stage.AtSigner?
    ensures Decided(AdvanceJob(u, w, id, c), id, w.jobs[id].task, w.jobs[id].stage.newKey,
                    c.ok && Transferable(w.signers, w.jobs[id].task.key))
  {
    RunKeeps(u, w0, steps);
    SignerDecides(u, w0, steps, w, id, c);
    AdvanceKeepsTask(u, w, id, c);
  }

  /** A chain that went to the signer is answered by the guard as it was then, whatever happens until the answer. */
  lemma {:induction false} GuardDecides(u: S.Authorities, w0: World, steps: seq<Step>, c: Choice, more: seq<Step>, id: nat)
    requires Fresh(w0)
    requires var w := Run(u, w0, steps);
      id in w.jobs && (IsReRent(w.jobs[id]) || IsReclaim(w.jobs[id])) && w.jobs[id].stage.AtSigner?
    ensures var w := Run(u, w0, steps);
      Decided(Run(u, w0, steps + [Advance(id, c)] + more), id, w.jobs[id].task, w.jobs[id].stage.newKey,
              c.ok && Transferable(w.signers, w.jobs[id].task.key))
  {
    var w, first := Run(u, w0, steps), steps + [Advance(id, c)];
    if more == [] {
      assert first[..|first| - 1] == steps && first + more == first;
      SignerStepDecides(u, w0, steps, w, id, c);
    } else {
      var less := more[..|more| - 1];
      RunLast(u, w0, first, more);
      GuardDecides(u, w0, steps, c, less, id);
      RunKeeps(u, w0, first + less);
      StepKeepsDecision(u, Run(u, w0, first + less), more[|more| - 1], id, w.jobs[id].task, w.jobs[id].stage.newKey,
                        c.ok && Transferable(w.signers, w.jobs[id].task.key));
    }
  }

  // ----- at the registry -----

  /** The new renter is the tenant of record and has paid. */
  ghost predicate ReRented(r: Registry, r': Registry, t: Task)
    requires t.ReRent?
  {
    && r'.subs == r.subs && r'.parked == r.parked - {t.key}
    && r'.money.revenue == r.money.revenue + t.rent
    && forall a :: PendingRefund(r'.money, a) == PendingRefund(r.money, a) + if a == t.payer then SatSub(t.attached, t.rent) else 0
  }

  /** The name is parked as before and the whole deposit is owed back. */
  ghost predicate NotReRented(r: Registry, r': Registry, t: Task)
    requires t.ReRent?
  {
    && r'.subs == r.subs - {t.key} && r'.parked == r.parked
    && r'.money.revenue == r.money.revenue
    && forall a :: PendingRefund(r'.money, a) == PendingRefund(r.money, a) + if a == t.payer then t.attached else 0
  }

  ghost predicate Reclaimed(r: Registry, r': Registry, t: Task, now: nat)
    requires t.Reclaim?
  {
    && r'.subs == r.subs - {t.key} && r'.parked == r.parked[t.key := ParkedEntry(t.tla, now)]
    && t.key !in r'.reclaimPending && !Settling(r'.board, t.key) && t.key !in r'.signerPending
    && r'.money == r.money
  }

  ghost predicate NotReclaimed(r: Registry, r': Registry, t: Task)
    requires t.Reclaim?
  {
    r' == r.(reclaimPending := r.reclaimPending - {t.key})
  }

  lemma ReRentEffect(r: Registry, t: Task, result: CallResult)
    requires t.ReRent? && Books(r.money) && Fits(OnReRented(r, t, result).money)
    ensures if result.Failed? then NotReRented(r, OnReRented(r, t, result), t) else ReRented(r, OnReRented(r, t, result), t)
  {
    if result.Failed? {
      AddRefundEffect(r.money, t.payer, t.attached);
    } else {
      RefundExcessEffect(AddRevenue(r.money, t.rent), t.payer, t.attached, t.rent);
    }
  }

  /** The key moved to the key the chain asked for. */
  ghost predicate KeyBecame(moves: seq<Move>, id: nat, wallet: Bytes, newKey: PublicKey) {
    exists i :: 0 <= i < |moves| && moves[i].id == id && moves[i].wallet == wallet && moves[i].to == newKey
  }

  lemma AnswerIsTrue(w: World, id: nat)
    requires Story(w) && id in w.jobs && w.jobs[id].Chain? && w.jobs[id].stage.Answered?
    ensures var stage := w.jobs[id].stage;
      KeyBecame(w.moves, id, w.jobs[id].task.key, stage.newKey) <==> stage.result == Returned(true)
  {
    assert Truthful(w.moves, id, w.jobs[id].task, w.jobs[id].stage);
  }

  /**
   A re-rent settles in any run: the new renter's key is on the wallet if and only if the answer was true,
   while he is booked and charged if and only if the answer was not a failure.
   */
  lemma ReRentSettles(u: S.Authorities, w0: World, steps: seq<Step>, w: World, id: nat, c: Choice)
    requires Fresh(w0) && FittingRun(u, w0, steps) && w == Run(u, w0, steps)
    requires id in w.jobs && IsReRent(w.jobs[id]) && w.jobs[id].stage.Answered?
    requires Fits(AdvanceJob(u, w, id, c).registry.money)
    ensures var w', t, result := AdvanceJob(u, w, id, c), w.jobs[id].task, w.jobs[id].stage.result;
      && id !in w'.jobs && w'.moves == w.moves
      && (KeyBecame(w.moves, id, t.key, t.ownerKey) <==> result == Returned(true))
      && if result.Failed? then NotReRented(w.registry, w'.registry, t) else ReRented(w.registry, w'.registry, t)
  {
    RunBalances(u, w0, steps);
    RunKeeps(u, w0, steps);
    AnswerIsTrue(w, id);
    assert Asks(w.jobs[id].task, w.jobs[id].stage);
    ReRentEffect(w.registry, w.jobs[id].task, w.jobs[id].stage.result);
  }

  /** The same for a reclaim: the parked key and the parking of the name are decided by different halves of the answer. */
  lemma ReclaimSettles(u: S.Authorities, w0: World, steps: seq<Step>, w: World, id: nat, c: Choice)
    requires Fresh(w0) && w == Run(u, w0, steps)
    requires id in w.jobs && IsReclaim(w.jobs[id]) && w.jobs[id].stage.Answered?
    ensures var w', t, stage := AdvanceJob(u, w, id, c), w.jobs[id].task, w.jobs[id].stage;
      && id !in w'.jobs && w'.moves == w.moves
      && (KeyBecame(w.moves, id, t.key, stage.newKey) <==> stage.result == Returned(true))
      && if stage.result.Failed? || t.key !in w.registry.subs then NotReclaimed(w.registry, w'.registry, t)
         else Reclaimed(w.registry, w'.registry, t, w.now)
  {
    RunKeeps(u, w0, steps);
    AnswerIsTrue(w, id);
  }
}
