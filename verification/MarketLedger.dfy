/** The refund ledger adds up in every run, solvent or not, as long as no number in it reaches the 128-bit ceiling. */
module MarketLedger {
  import opened Types
  import opened Fees
  import opened RegistryTypes
  import opened RegistryRules
  import opened Sums
  import opened Market
  import opened MarketSolvency
  import S = SignerRules

  /** Neither running total stands at the ceiling a saturating addition stops at. */
  predicate Fits(m: Money) {
    m.revenue < U128_LIMIT - 1 && m.total < U128_LIMIT - 1
  }

  ghost predicate FittingRun(u: S.Authorities, w: World, steps: seq<Step>) {
    Fits(Run(u, w, steps).registry.money) && (steps != [] ==> FittingRun(u, w, steps[..|steps| - 1]))
  }

  /** The total does not fall, and books that added up still do unless the total hit the ceiling. */
  ghost predicate Adds(m: Money, m': Money) {
    m.total <= m'.total && (Books(m) && m'.total < U128_LIMIT - 1 ==> Books(m'))
  }

  /** The same without the first half. */
  ghost predicate Balances(m: Money, m': Money) {
    Books(m) && Fits(m') ==> Books(m')
  }

  // ----- ledger operations -----

  lemma RefundAdds(m: Money, a: AccountId, amount: nat)
    requires m.total < U128_LIMIT
    ensures Adds(m, AddPendingRefund(m, a, amount))
  {
    if Books(m) && m.total + amount < U128_LIMIT { AddRefundEffect(m, a, amount); }
  }

  lemma ExcessAdds(m: Money, payer: AccountId, attached: nat, charged: nat)
    requires m.total < U128_LIMIT
    ensures Adds(m, RefundExcess(m, payer, attached, charged))
  {
    RefundAdds(m, payer, SatSub(attached, charged));
  }

  lemma ChargeAdds(m: Money, payer: AccountId, attached: nat, charged: nat)
    requires m.total < U128_LIMIT
    ensures Adds(m, Charge(m, payer, attached, charged))
  {
    ExcessAdds(AddRevenue(m, charged), payer, attached, charged);
  }

  lemma RentalAdds(m: Money, deposit: nat, j: Job)
    requires m.total < U128_LIMIT && j.Mint?
    ensures Adds(m, RentalMoney(m, deposit, j))
  {
    if j.paid {
      ExcessAdds(m, j.payer, j.attached, deposit);
    } else {
      ExcessAdds(AddRevenue(m, j.rent), j.payer, j.attached, SatAdd(j.rent, deposit, U128_LIMIT));
    }
  }

  lemma SaleAdds(m: Money, bps: nat, seller: AccountId, t: Task)
    requires m.total < U128_LIMIT && t.Buy?
    ensures Adds(m, SaleMoney(m, bps, seller, t))
  {
    var (commission, proceeds) := SplitResale(t.price, bps);
    var m1 := AddRevenue(m, commission);
    var m2 := AddPendingRefund(m1, seller, proceeds);
    RefundAdds(m1, seller, proceeds);
    ExcessAdds(m2, t.buyer, t.deposit, t.price);
  }

  // ----- calls -----

  lemma EnvironmentKeepsMoney(w: World, step: Step)
    ensures ApplyEnvironment(w, step).registry.money == w.registry.money
  {}

  lemma ActivateBalances(w: World, step: Step)
    requires w.registry.money.total < U128_LIMIT && step.DoActivateTla?
    ensures Balances(w.registry.money, ApplyTla(w, step).registry.money)
  {
    var m, fees := w.registry.money, w.registry.config.fees;
    ChargeAdds(m, step.caller, step.attached, SatAdd(fees.tlaAllocationFee, BaseRent(|step.tla| % 256, fees), U128_LIMIT));
  }

  lemma RenewBalances(w: World, step: Step)
    requires w.registry.money.total < U128_LIMIT && step.DoRenewTla?
    ensures Balances(w.registry.money, ApplyTla(w, step).registry.money)
  {
    ChargeAdds(w.registry.money, step.caller, step.attached, BaseRent(|step.tla| % 256, w.registry.config.fees));
  }

  lemma TlaStepBalances(w: World, step: Step)
    requires w.registry.money.total < U128_LIMIT
    ensures Balances(w.registry.money, ApplyTla(w, step).registry.money)
  {
    if step.DoActivateTla? {
      ActivateBalances(w, step);
    } else if step.DoRenewTla? {
      RenewBalances(w, step);
    }
  }

  lemma LeaseStepBalances(w: World, step: Step)
    requires w.registry.money.total < U128_LIMIT
    ensures Balances(w.registry.money, ApplyLease(w, step).registry.money)
  {
    if step.DoRenewSub? && step.tla in w.registry.tlas {
      var t := w.registry.tlas[step.tla];
      ChargeAdds(w.registry.money, step.caller, step.attached,
                 CalculateRent(t.tlaType, t.premium, step.tla, step.name, w.registry.config.fees));
    }
  }

  lemma RentKeepsMoney(r: Registry, c: Call, tla: AccountId, name: Bytes, ownerKey: PublicKey, mainWallet: AccountId)
    ensures var o := Rent(r, c, tla, name, ownerKey, mainWallet); o.Ok? ==> o.value.0.money == r.money
    ensures var o := RentPaid(r, c, tla, name, ownerKey, mainWallet); o.Ok? ==> o.value.0.money == r.money
  {}

  lemma TenancyStepKeepsMoney(w: World, step: Step)
    ensures ApplyTenancy(w, step).registry.money == w.registry.money
  {
    if step.DoRent? || step.DoRentPaid? {
      RentKeepsMoney(w.registry, Call(step.caller, step.attached, w.now), step.tla, step.name, step.ownerKey, step.mainWallet);
    }
  }

  lemma TradeStepKeepsMoney(w: World, step: Step)
    ensures ApplyTrade(w, step).registry.money == w.registry.money
  {}

  lemma MoneyStepBalances(w: World, step: Step)
    requires w.registry.money.total < U128_LIMIT
    ensures Balances(w.registry.money, ApplyMoney(w, step).registry.money)
  {
    var m := w.registry.money;
    match step
    case DoSweepFt(caller, attached, _, _, _, _) => ExcessAdds(m, caller, attached, SWEEP_DEPOSIT);
    case DoClaimRefund(caller, _) => if caller in m.refunds { SumWithout(m.refunds, caller); }
    case DoWithdraw(_, amount, recipient, _) => RefundAdds(m.(revenue := SatSub(m.revenue, amount)), recipient, amount);
    case _ =>
  }

  // ----- receipts -----

  lemma SettleBalances(w: World, t: Task, result: CallResult)
    requires w.registry.money.total < U128_LIMIT
    ensures Balances(w.registry.money, Settle(w, t, result).money)
  {
    var r := w.registry;
    match t
    case ReRent(_, _, payer, _, rent, attached) =>
      RefundAdds(r.money, payer, attached);
      ChargeAdds(r.money, payer, attached, rent);
    case Buy(_, key, buyer, _, _, deposit, _, _) =>
      RefundAdds(r.money, buyer, deposit);
      if key in r.subs { SaleAdds(r.money, r.config.fees.commissionBps, r.subs[key].owner, t); }
    case _ =>
  }

  lemma GateBalances(w: World, t: Task, c: Choice)
    requires w.registry.money.total < U128_LIMIT
    ensures Balances(w.registry.money, AfterGate(w, t, c).1.money)
  {
    match t
    case ReRent(_, _, payer, _, _, attached) => RefundAdds(w.registry.money, payer, attached);
    case Buy(_, _, buyer, _, _, deposit, _, _) => RefundAdds(w.registry.money, buyer, deposit);
    case _ =>
  }

  lemma CreatedBalances(r: Registry, j: Job, outcome: MintOutcome)
    requires j.Mint? && r.money.total < U128_LIMIT
    ensures Balances(r.money, OnCreated(r, j, outcome).money)
  {
    RefundAdds(r.money, j.payer, j.attached);
    RentalAdds(r.money, r.config.fees.creationDeposit, j);
  }

  lemma AdvanceBalances(u: S.Authorities, w: World, id: nat, c: Choice)
    requires w.registry.money.total < U128_LIMIT
    ensures Balances(w.registry.money, AdvanceJob(u, w, id, c).registry.money)
  {
    if id in w.jobs {
      var j := w.jobs[id];
      if j.Mint? && j.mint.Reported? {
        CreatedBalances(w.registry, j, j.mint.outcome);
      } else if j.Chain? && j.stage.Gate? {
        GateBalances(w, j.task, c);
      } else if j.Chain? && j.stage.Answered? {
        SettleBalances(w, j.task, j.stage.result);
      } else if j.Payout? {
        RefundAdds(w.registry.money, j.account, j.amount);
      }
    }
  }

  // ----- every step, every run -----

  lemma StepBalances(u: S.Authorities, w: World, step: Step)
    requires w.registry.money.total < U128_LIMIT
    ensures Balances(w.registry.money, Apply(u, w, step).registry.money)
  {
    if step.Advance? {
      AdvanceBalances(u, w, step.id, step.choice);
    } else if OfEnvironment(step) {
      EnvironmentKeepsMoney(w, step);
    } else if OfTlas(step) {
      TlaStepBalances(w, step);
    } else if OfLeases(step) {
      LeaseStepBalances(w, step);
    } else if OfTenancies(step) {
      TenancyStepKeepsMoney(w, step);
    } else if OfTrade(step) {
      TradeStepKeepsMoney(w, step);
    } else {
      MoneyStepBalances(w, step);
    }
  }

  /** No lowering of fees, no insolvency and no forced lock puts the refund map and its total out of step. */
  lemma {:induction false} RunBalances(u: S.Authorities, w: World, steps: seq<Step>)
    requires Fresh(w) && FittingRun(u, w, steps)
    ensures Books(Run(u, w, steps).registry.money)
  {
    if steps != [] {
      RunBalances(u, w, steps[..|steps| - 1]);
      StepBalances(u, Run(u, w, steps[..|steps| - 1]), steps[|steps| - 1]);
    }
  }
}
