/** A lease that is over stays over: nothing but a new rental makes the name sellable again. */
module MarketLeases {
  import opened Types
  import opened RegistryTypes
  import opened RegistryRules
  import opened Market
  import opened MarketLocks
  import S = SignerRules

  /** Every entry hangs under a TLA that has been activated. */
  ghost predicate Rooted(r: Registry) {
    forall k :: k in r.subs ==> r.subs[k].tlaId in r.tlas && r.tlas[r.subs[k].tlaId].status != Registered
  }

  predicate Over(w: World, expiresAt: nat) {
    TimeLifecycle(w.now, expiresAt, w.registry.config.graceNs) == Reclaimable
  }

  /** No TLA leaves the registry or goes back to unactivated, and no expiry that has passed its grace is moved. */
  ghost predicate TlasEvolve(w: World, w': World) {
    var r, r' := w.registry, w'.registry;
    forall t :: t in r.tlas ==>
      && t in r'.tlas
      && (r.tlas[t].status != Registered ==>
            r'.tlas[t].status != Registered && (Over(w, r.tlas[t].expiresAt) ==> r'.tlas[t].expiresAt == r.tlas[t].expiresAt))
  }

  ghost predicate SubsEvolve(w: World, w': World) {
    var r, r' := w.registry, w'.registry;
    forall k :: k in r'.subs ==>
      && (k in r.subs ==>
            r'.subs[k].tlaId == r.subs[k].tlaId && (Over(w, r.subs[k].expiresAt) ==> r'.subs[k].expiresAt == r.subs[k].expiresAt))
      && (k !in r.subs ==> r'.subs[k].tlaId in r'.tlas && r'.tlas[r'.subs[k].tlaId].status != Registered)
  }

  ghost predicate Evolves(w: World, w': World) {
    w.now <= w'.now && w'.registry.config.graceNs == w.registry.config.graceNs && TlasEvolve(w, w') && SubsEvolve(w, w')
  }

  lemma TlaStepEvolves(w: World, step: Step)
    requires step.DoRegisterTla? || step.DoActivateOpenTla? || step.DoSuspendTla? || step.DoUnsuspendTla?
    ensures Evolves(w, ApplyTla(w, step))
  {}

  lemma ActivateTlaEvolves(w: World, step: Step)
    requires step.DoActivateTla?
    ensures Evolves(w, ApplyTla(w, step))
  {}

  lemma RenewTlaEvolves(w: World, step: Step)
    requires step.DoRenewTla?
    ensures Evolves(w, ApplyTla(w, step))
  {}

  lemma RenewSubEvolves(w: World, step: Step)
    requires step.DoRenewSub?
    ensures Evolves(w, ApplyLease(w, step))
  {}

  lemma SetMainWalletEvolves(w: World, step: Step)
    requires step.DoSetMainWallet?
    ensures Evolves(w, ApplyLease(w, step))
  {}

  lemma ScheduleEvolves(w: World, step: Step)
    requires step.DoScheduleRetraction?
    ensures Evolves(w, ApplyLease(w, step))
  {}

  lemma CancelEvolves(w: World, step: Step)
    requires step.DoCancelRetraction?
    ensures Evolves(w, ApplyLease(w, step))
  {}

  lemma RentEvolves(w: World, step: Step)
    requires step.DoRent? || step.DoRentPaid?
    ensures Evolves(w, ApplyTenancy(w, step))
  {}

  /** Entries may go, or change owner, but not their TLA or dates. */
  ghost predicate SubsShrink(r: Registry, r': Registry) {
    && r'.tlas == r.tlas && r'.config == r.config
    && forall k :: k in r'.subs ==>
         k in r.subs && r'.subs[k].tlaId == r.subs[k].tlaId && r'.subs[k].expiresAt == r.subs[k].expiresAt
  }

  lemma OnCreatedShrinks(r: Registry, j: Job, outcome: MintOutcome)
    requires j.Mint?
    ensures SubsShrink(r, OnCreated(r, j, outcome))
  {}

  lemma SettleShrinks(w: World, t: Task, result: CallResult)
    ensures SubsShrink(w.registry, Settle(w, t, result))
  {}

  lemma GateShrinks(w: World, t: Task, c: Choice)
    ensures SubsShrink(w.registry, AfterGate(w, t, c).1)
  {}

  lemma AdvanceShrinks(u: S.Authorities, w: World, id: nat, c: Choice)
    requires id in w.jobs
    ensures SubsShrink(w.registry, AdvanceJob(u, w, id, c).registry)
  {
    var j := w.jobs[id];
    if j.Mint? && j.mint.Reported? {
      OnCreatedShrinks(w.registry, j, j.mint.outcome);
    } else if j.Chain? && j.stage.Gate? {
      GateShrinks(w, j.task, c);
    } else if j.Chain? && j.stage.Answered? {
      SettleShrinks(w, j.task, j.stage.result);
    }
  }

  lemma AdvanceEvolves(u: S.Authorities, w: World, id: nat, c: Choice)
    ensures Evolves(w, AdvanceJob(u, w, id, c))
  {
    if id in w.jobs { AdvanceShrinks(u, w, id, c); }
  }

  lemma BuyEvolves(w: World, step: Step)
    requires step.DoBuy?
    ensures Evolves(w, ApplyTrade(w, step))
  {
    assert SubsShrink(w.registry, ApplyTrade(w, step).registry);
  }

  lemma BuyPaidEvolves(w: World, step: Step)
    requires step.DoBuyPaid?
    ensures Evolves(w, ApplyTrade(w, step))
  {
    assert SubsShrink(w.registry, ApplyTrade(w, step).registry);
  }

  lemma ReclaimEvolves(w: World, step: Step)
    requires step.DoReclaim?
    ensures Evolves(w, ApplyTenancy(w, step))
  {
    assert SubsShrink(w.registry, ApplyTenancy(w, step).registry);
  }

  lemma ListingStepEvolves(w: World, step: Step)
    requires step.DoListOrOffer? || step.DoUnlist? || step.DoRevokeOffer?
    ensures Evolves(w, ApplyTrade(w, step))
  {
    assert SubsShrink(w.registry, ApplyTrade(w, step).registry);
  }

  lemma SweepEvolves(w: World, step: Step)
    requires step.DoSweepFt?
    ensures Evolves(w, ApplyMoney(w, step))
  {
    assert SubsShrink(w.registry, ApplyMoney(w, step).registry);
  }

  lemma MoneyOutEvolves(w: World, step: Step)
    requires step.DoWithdraw? || step.DoClaimRefund?
    ensures Evolves(w, ApplyMoney(w, step))
  {
    assert SubsShrink(w.registry, ApplyMoney(w, step).registry);
  }

  lemma RetryEvolves(w: World, step: Step)
    requires step.DoRetryInstall?
    ensures Evolves(w, ApplyTenancy(w, step))
  {
    assert ApplyTenancy(w, step).registry == w.registry;
  }

  lemma EnvironmentEvolves(w: World, step: Step)
    requires step.Tick? || step.SignersChange? || step.Receive? || step.Configure? || step.SetBusinessCap? || step.DoUpdateFees?
    ensures Evolves(w, ApplyEnvironment(w, step))
  {}

  lemma OverrideEvolves(w: World, step: Step)
    requires Override(step)
    ensures Evolves(w, ApplyEnvironment(w, step))
  {
    assert SubsShrink(w.registry, ApplyEnvironment(w, step).registry);
  }

  lemma EnvironmentCallEvolves(w: World, step: Step)
    ensures Evolves(w, ApplyEnvironment(w, step))
  {
    match step
    case Tick(_) => EnvironmentEvolves(w, step);
    case SignersChange(_) => EnvironmentEvolves(w, step);
    case Receive(_) => EnvironmentEvolves(w, step);
    case Configure(_, _, _, _, _) => EnvironmentEvolves(w, step);
    case SetBusinessCap(_, _) => EnvironmentEvolves(w, step);
    case DoUpdateFees(_, _) => EnvironmentEvolves(w, step);
    case ClearSaleLock(_, _, _) => OverrideEvolves(w, step);
    case ClearReclaimLock(_, _, _) => OverrideEvolves(w, step);
    case _ =>
  }

  lemma TlaCallEvolves(w: World, step: Step)
    ensures Evolves(w, ApplyTla(w, step))
  {
    match step
    case DoRegisterTla(_, _, _, _, _) => TlaStepEvolves(w, step);
    case DoActivateOpenTla(_, _) => TlaStepEvolves(w, step);
    case DoActivateTla(_, _, _) => ActivateTlaEvolves(w, step);
    case DoRenewTla(_, _, _) => RenewTlaEvolves(w, step);
    case DoSuspendTla(_, _) => TlaStepEvolves(w, step);
    case DoUnsuspendTla(_, _) => TlaStepEvolves(w, step);
    case _ =>
  }

  lemma LeaseCallEvolves(w: World, step: Step)
    ensures Evolves(w, ApplyLease(w, step))
  {
    match step
    case DoRenewSub(_, _, _, _) => RenewSubEvolves(w, step);
    case DoSetMainWallet(_, _, _, _, _) => SetMainWalletEvolves(w, step);
    case DoScheduleRetraction(_, _, _, _) => ScheduleEvolves(w, step);
    case DoCancelRetraction(_, _, _, _) => CancelEvolves(w, step);
    case _ =>
  }

  lemma TenancyCallEvolves(w: World, step: Step)
    ensures Evolves(w, ApplyTenancy(w, step))
  {
    match step
    case DoRent(_, _, _, _, _, _) => RentEvolves(w, step);
    case DoRentPaid(_, _, _, _, _, _) => RentEvolves(w, step);
    case DoRetryInstall(_, _, _) => RetryEvolves(w, step);
    case DoReclaim(_, _, _, _) => ReclaimEvolves(w, step);
    case _ =>
  }

  lemma TradeCallEvolves(w: World, step: Step)
    ensures Evolves(w, ApplyTrade(w, step))
  {
    match step
    case DoListOrOffer(_, _, _, _, _, _, _, _) => ListingStepEvolves(w, step);
    case DoUnlist(_, _, _, _) => ListingStepEvolves(w, step);
    case DoRevokeOffer(_, _, _, _) => ListingStepEvolves(w, step);
    case DoBuy(_, _, _, _, _, _) => BuyEvolves(w, step);
    case DoBuyPaid(_, _, _, _, _, _) => BuyPaidEvolves(w, step);
    case _ =>
  }

  lemma MoneyCallEvolves(w: World, step: Step)
    ensures Evolves(w, ApplyMoney(w, step))
  {
    match step
    case DoSweepFt(_, _, _, _, _, _) => SweepEvolves(w, step);
    case DoClaimRefund(_, _) => MoneyOutEvolves(w, step);
    case DoWithdraw(_, _, _, _) => MoneyOutEvolves(w, step);
    case _ =>
  }

  lemma StepEvolves(u: S.Authorities, w: World, step: Step)
    ensures Evolves(w, Apply(u, w, step))
  {
    if step.Advance? {
      AdvanceEvolves(u, w, step.id, step.choice);
    } else if OfEnvironment(step) {
      EnvironmentCallEvolves(w, step);
    } else if OfTlas(step) {
      TlaCallEvolves(w, step);
    } else if OfLeases(step) {
      LeaseCallEvolves(w, step);
    } else if OfTenancies(step) {
      TenancyCallEvolves(w, step);
    } else if OfTrade(step) {
      TradeCallEvolves(w, step);
    } else {
      MoneyCallEvolves(w, step);
    }
  }

  lemma {:induction false} RunStaysRooted(u: S.Authorities, w: World, steps: seq<Step>)
    requires Rooted(w.registry)
    ensures Rooted(Run(u, w, steps).registry)
  {
    if steps != [] {
      var before := Run(u, w, steps[..|steps| - 1]);
      RunStaysRooted(u, w, steps[..|steps| - 1]);
      StepEvolves(u, before, steps[|steps| - 1]);
    }
  }

  /** The name keeps an entry throughout the run. */
  ghost predicate StaysRented(u: S.Authorities, w: World, steps: seq<Step>, k: Bytes) {
    && k in Run(u, w, steps).registry.subs
    && (steps != [] ==> StaysRented(u, w, steps[..|steps| - 1], k))
  }

  /**
   Once a lease is past its grace, or its TLA's is, no sequence of renewals, suspensions, fee changes
   or anything else makes the name sellable while the entry remains.
   */
  lemma {:induction false} ExpiredIsForever(u: S.Authorities, w: World, steps: seq<Step>, k: Bytes)
    requires Rooted(w.registry) && Expired(w, k) && StaysRented(u, w, steps, k)
    ensures Expired(Run(u, w, steps), k)
    ensures forall tla, isMother :: Sellable(Run(u, w, steps).registry, Run(u, w, steps).now, tla, k, isMother).Err?
  {
    if steps != [] {
      var before := Run(u, w, steps[..|steps| - 1]);
      ExpiredIsForever(u, w, steps[..|steps| - 1], k);
      RunStaysRooted(u, w, steps[..|steps| - 1]);
      StepEvolves(u, before, steps[|steps| - 1]);
    }
    var after := Run(u, w, steps);
    forall tla, isMother ensures Sellable(after.registry, after.now, tla, k, isMother).Err? {
      DoomedIsNotSellable(after, tla, k, isMother);
    }
  }
}
