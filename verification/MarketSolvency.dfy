/**
 The registry's token balance covers what it owes: revenue, refunds, and the deposits of mints and
 sales in flight. Every step moves the surplus by a known amount, so no token is lost or owed twice.
 */
module MarketSolvency {
  import opened Types
  import opened Fees
  import opened RegistryTypes
  import opened RegistryRules
  import opened Names
  import opened Sums
  import opened Market
  import S = SignerRules

  // ----- what is owed -----

  predicate Created(j: Job) {
    j.Mint? && (j.mint == Reported(Installed) || j.mint == Reported(SignerPending))
  }

  predicate FundingReturned(j: Job) {
    j.Mint? && (j.mint == Reported(Rejected) || j.mint == Reported(CreationFailed))
  }

  /** The part of a job's deposit that is in the registry's balance and not yet revenue or refund. */
  function Held(j: Job): nat {
    match j
    case Mint(_, _, _, _, _, attached, funding, _, _) => if FundingReturned(j) then attached else SatSub(attached, funding)
    case Chain(ReRent(_, _, _, _, _, attached), _) => attached
    case Chain(Buy(_, _, _, _, _, deposit, _, _), _) => deposit
    case _ => 0
  }

  function HeldBy(jobs: map<nat, Job>): map<nat, nat> {
    map i | i in jobs :: Held(jobs[i])
  }

  ghost function HeldSum(jobs: map<nat, Job>): nat {
    Sum(HeldBy(jobs))
  }

  ghost predicate Books(m: Money) {
    m.total == Sum(m.refunds)
  }

  ghost function Surplus(w: World): int {
    w.balance - w.registry.money.revenue - w.registry.money.total - HeldSum(w.jobs)
  }

  /** The deposit of a job covers what will be charged for it; `deposit` is the creation deposit in force. */
  predicate Covered(deposit: nat, j: Job) {
    match j
    case Mint(_, _, _, _, rent, attached, funding, paid, _) =>
      funding <= deposit && funding <= attached < U128_LIMIT - 1 && (!paid ==> rent + funding <= attached)
    case Chain(ReRent(_, _, _, _, rent, attached), _) => rent <= attached
    case Chain(Buy(_, _, _, _, price, deposit, _, operator), _) => if operator.None? then price <= deposit else deposit == 0
    case _ => true
  }

  ghost predicate AllCovered(w: World) {
    forall i :: i in w.jobs ==> i < w.nextId && Covered(w.registry.config.fees.creationDeposit, w.jobs[i])
  }

  ghost predicate Sound(w: World) {
    Books(w.registry.money) && AllCovered(w) && 0 <= Surplus(w)
  }

  // ----- what runs are assumed to be like -----

  function Attached(step: Step): nat {
    match step
    case Receive(amount) => amount
    case DoActivateTla(_, attached, _) => attached
    case DoRenewTla(_, attached, _) => attached
    case DoRent(_, attached, _, _, _, _) => attached
    case DoRentPaid(_, attached, _, _, _, _) => attached
    case DoRenewSub(_, attached, _, _) => attached
    case DoSetMainWallet(_, attached, _, _, _) => attached
    case DoScheduleRetraction(_, attached, _, _) => attached
    case DoCancelRetraction(_, attached, _, _) => attached
    case DoListOrOffer(_, attached, _, _, _, _, _, _) => attached
    case DoUnlist(_, attached, _, _) => attached
    case DoRevokeOffer(_, attached, _, _) => attached
    case DoBuy(_, attached, _, _, _, _) => attached
    case DoSweepFt(_, attached, _, _, _, _) => attached
    case _ => 0
  }

  /** No balance, with a call's deposit on top, reaches the largest 128-bit number: there are not that many tokens. */
  predicate WithinSupply(u: S.Authorities, w: World, step: Step) {
    w.balance + Attached(step) < U128_LIMIT - 1 && Apply(u, w, step).balance < U128_LIMIT - 1
  }

  /** The creation deposit is not lowered while a mint is in flight. */
  ghost predicate KeepsDeposit(w: World, step: Step) {
    step.DoUpdateFees? && (exists i :: i in w.jobs && w.jobs[i].Mint?) ==>
      w.registry.config.fees.creationDeposit <= step.fees.creationDeposit
  }

  ghost predicate FundedRun(u: S.Authorities, w: World, steps: seq<Step>) {
    steps == [] ||
    (var before := Run(u, w, steps[..|steps| - 1]);
     FundedRun(u, w, steps[..|steps| - 1]) && WithinSupply(u, before, steps[|steps| - 1]) && KeepsDeposit(before, steps[|steps| - 1]))
  }

  // ----- how the surplus moves -----

  /** What the registry keeps of a created mint's deposit beyond the rent, less the funding it sent. */
  function MintGain(w: World, j: Job): int
    requires j.Mint?
  {
    var rest := if j.paid then j.attached else j.attached - j.rent;
    if j.key !in w.registry.subs then j.attached - j.funding
    else if rest <= w.registry.config.fees.creationDeposit then rest - j.funding
    else w.registry.config.fees.creationDeposit - j.funding
  }

  predicate OneYocto(step: Step) {
    step.DoSetMainWallet? || step.DoScheduleRetraction? || step.DoCancelRetraction? || step.DoListOrOffer? ||
    step.DoUnlist? || step.DoRevokeOffer?
  }

  /** Gifts and one-yocto deposits are surplus; a settled mint leaves what it paid over its funding; nothing else does. */
  function Gain(u: S.Authorities, w: World, step: Step): int {
    if step.Receive? || OneYocto(step) then Apply(u, w, step).balance - w.balance
    else if step.Advance? && step.id in w.jobs && Created(w.jobs[step.id]) then MintGain(w, w.jobs[step.id])
    else 0
  }

  /** What every step is to keep. */
  ghost predicate Conserves(w: World, w': World, gain: int) {
    Sound(w') && Surplus(w') == Surplus(w) + gain
  }

  // ----- the ledger -----

  lemma AddRefundEffect(m: Money, a: AccountId, amount: nat)
    requires Books(m) && m.total + amount < U128_LIMIT
    ensures var m' := AddPendingRefund(m, a, amount);
      && Books(m') && m'.revenue == m.revenue && m'.total == m.total + amount
      && forall b :: PendingRefund(m', b) == PendingRefund(m, b) + if b == a then amount else 0
  {
    if a in m.refunds { SumAtLeast(m.refunds, a); }
    SumUpdate(m.refunds, a, PendingRefund(m, a) + amount);
  }

  lemma RefundExcessEffect(m: Money, payer: AccountId, attached: nat, charged: nat)
    requires Books(m) && m.total + SatSub(attached, charged) < U128_LIMIT
    ensures var m' := RefundExcess(m, payer, attached, charged);
      && Books(m') && m'.revenue == m.revenue && m'.total == m.total + SatSub(attached, charged)
      && forall b :: PendingRefund(m', b) == PendingRefund(m, b) + if b == payer then SatSub(attached, charged) else 0
  {
    AddRefundEffect(m, payer, SatSub(attached, charged));
  }

  lemma ChargeEffect(m: Money, payer: AccountId, attached: nat, charged: nat)
    requires Books(m) && charged <= attached && m.revenue + m.total + attached < U128_LIMIT
    ensures var m' := Charge(m, payer, attached, charged);
      Books(m') && m'.revenue == m.revenue + charged && m'.total == m.total + attached - charged
  {
    RefundExcessEffect(AddRevenue(m, charged), payer, attached, charged);
  }

  lemma RentalMoneyEffect(m: Money, deposit: nat, j: Job)
    requires Books(m) && j.Mint? && Covered(deposit, j) && m.revenue + m.total + j.attached - j.funding < U128_LIMIT
    ensures var m' := RentalMoney(m, deposit, j);
      var rest := if j.paid then j.attached else j.attached - j.rent;
      && Books(m')
      && m'.revenue + m'.total == m.revenue + m.total + j.attached - (if rest <= deposit then rest else deposit)
  {
    if j.paid {
      RefundExcessEffect(m, j.payer, j.attached, deposit);
    } else {
      RefundExcessEffect(AddRevenue(m, j.rent), j.payer, j.attached, SatAdd(j.rent, deposit, U128_LIMIT));
    }
  }

  /** The seller's proceeds, the commission and the buyer's excess, to the last yocto. */
  lemma SaleMoneyEffect(m: Money, bps: nat, seller: AccountId, t: Task)
    requires Books(m) && t.Buy? && t.price <= t.deposit
    requires var (commission, proceeds) := SplitResale(t.price, bps);
      m.revenue + commission < U128_LIMIT && m.total + proceeds + (t.deposit - t.price) < U128_LIMIT
    ensures var m' := SaleMoney(m, bps, seller, t);
      var (commission, proceeds) := SplitResale(t.price, bps);
      && Books(m') && m'.revenue == m.revenue + commission
      && m'.total == m.total + proceeds + (t.deposit - t.price)
      && forall a :: PendingRefund(m', a) == PendingRefund(m, a) + (if a == seller then proceeds else 0)
                                             + (if a == t.buyer then t.deposit - t.price else 0)
  {
    var (commission, proceeds) := SplitResale(t.price, bps);
    var m1 := AddRevenue(m, commission);
    AddRefundEffect(m1, seller, proceeds);
    RefundExcessEffect(AddPendingRefund(m1, seller, proceeds), t.buyer, t.deposit, t.price);
  }

  // ----- the deposits held -----

  lemma HeldSet(jobs: map<nat, Job>, id: nat, j: Job)
    ensures HeldSum(jobs[id := j]) == HeldSum(jobs) + Held(j) - if id in jobs then Held(jobs[id]) else 0
  {
    assert HeldBy(jobs[id := j]) == HeldBy(jobs)[id := Held(j)];
    SumUpdate(HeldBy(jobs), id, Held(j));
  }

  lemma HeldRemoved(jobs: map<nat, Job>, id: nat)
    requires id in jobs
    ensures HeldSum(jobs) == Held(jobs[id]) + HeldSum(jobs - {id})
  {
    SumWithout(HeldBy(jobs), id);
    assert HeldBy(jobs) - {id} == HeldBy(jobs - {id});
  }

  // ----- the ways a step can change the world -----

  lemma MoneyChanges(w: World, w': World, gain: nat)
    requires Sound(w) && w'.jobs == w.jobs && w'.nextId == w.nextId && Books(w'.registry.money)
    requires w'.registry.config.fees.creationDeposit == w.registry.config.fees.creationDeposit
    requires w'.balance - w'.registry.money.revenue - w'.registry.money.total ==
             w.balance - w.registry.money.revenue - w.registry.money.total + gain
    ensures Conserves(w, w', gain)
  {}

  lemma JobBegins(w: World, w': World, j: Job)
    requires Sound(w) && w'.jobs == w.jobs[w.nextId := j] && w'.nextId == w.nextId + 1 && Books(w'.registry.money)
    requires w'.registry.config.fees.creationDeposit == w.registry.config.fees.creationDeposit
    requires Covered(w.registry.config.fees.creationDeposit, j)
    requires w'.balance - w'.registry.money.revenue - w'.registry.money.total - Held(j) >=
             w.balance - w.registry.money.revenue - w.registry.money.total
    ensures Conserves(w, w', w'.balance - w'.registry.money.revenue - w'.registry.money.total - Held(j)
                             - (w.balance - w.registry.money.revenue - w.registry.money.total))
  {
    HeldSet(w.jobs, w.nextId, j);
  }

  lemma JobMoves(w: World, w': World, id: nat, j: Job)
    requires Sound(w) && id in w.jobs && w'.jobs == w.jobs[id := j] && w'.nextId == w.nextId
    requires w'.registry == w.registry && Covered(w.registry.config.fees.creationDeposit, j)
    requires w'.balance - Held(j) == w.balance - Held(w.jobs[id])
    ensures Conserves(w, w', 0)
  {
    HeldSet(w.jobs, id, j);
  }

  lemma JobEnds(w: World, w': World, id: nat, gain: nat)
    requires Sound(w) && id in w.jobs && w'.jobs == w.jobs - {id} && w'.nextId == w.nextId && Books(w'.registry.money)
    requires w'.registry.config.fees.creationDeposit == w.registry.config.fees.creationDeposit
    requires w'.balance - w'.registry.money.revenue - w'.registry.money.total ==
             w.balance - w.registry.money.revenue - w.registry.money.total - Held(w.jobs[id]) + gain
    ensures Conserves(w, w', gain)
  {
    HeldRemoved(w.jobs, id);
  }

  /** Under the supply, what is owed plus a job's deposit stays within 128 bits. */
  lemma HeldFits(w: World, id: nat)
    requires Sound(w) && id in w.jobs
    ensures w.registry.money.revenue + w.registry.money.total + Held(w.jobs[id]) <= w.balance
  {
    HeldRemoved(w.jobs, id);
  }

  // ----- calls -----

  lemma ActivateConserves(w: World, step: Step)
    requires Sound(w) && w.balance + Attached(step) < U128_LIMIT - 1 && step.DoActivateTla?
    ensures Conserves(w, ApplyTla(w, step), 0)
  {
    var o := ActivateTla(w.registry, Call(step.caller, step.attached, w.now), step.tla);
    if o.Ok? {
      var fees := w.registry.config.fees;
      ChargeEffect(w.registry.money, step.caller, step.attached, SatAdd(fees.tlaAllocationFee, BaseRent(|step.tla| % 256, fees), U128_LIMIT));
      MoneyChanges(w, ApplyTla(w, step), 0);
    }
  }

  lemma RenewTlaConserves(w: World, step: Step)
    requires Sound(w) && w.balance + Attached(step) < U128_LIMIT - 1 && step.DoRenewTla?
    ensures Conserves(w, ApplyTla(w, step), 0)
  {
    var o := RenewTla(w.registry, Call(step.caller, step.attached, w.now), step.tla);
    if o.Ok? {
      ChargeEffect(w.registry.money, step.caller, step.attached, BaseRent(|step.tla| % 256, w.registry.config.fees));
      MoneyChanges(w, ApplyTla(w, step), 0);
    }
  }

  lemma RenewSubConserves(w: World, step: Step)
    requires Sound(w) && w.balance + Attached(step) < U128_LIMIT - 1 && step.DoRenewSub?
    ensures Conserves(w, ApplyLease(w, step), 0)
  {
    var o := RenewSub(w.registry, Call(step.caller, step.attached, w.now), step.tla, step.name);
    if o.Ok? {
      var t := w.registry.tlas[step.tla];
      ChargeEffect(w.registry.money, step.caller, step.attached,
                   CalculateRent(t.tlaType, t.premium, step.tla, step.name, w.registry.config.fees));
      MoneyChanges(w, ApplyLease(w, step), 0);
    }
  }

  lemma SweepConserves(w: World, step: Step)
    requires Sound(w) && w.balance + Attached(step) < U128_LIMIT - 1 && step.DoSweepFt?
    ensures Conserves(w, ApplyMoney(w, step), 0)
  {
    var o := SweepFt(w.registry, Call(step.caller, step.attached, w.now), step.tla, step.name, step.ft, step.isMother);
    if o.Ok? {
      RefundExcessEffect(w.registry.money, step.caller, step.attached, SWEEP_DEPOSIT);
      MoneyChanges(w, ApplyMoney(w, step), 0);
    }
  }

  lemma WithdrawConserves(w: World, step: Step)
    requires Sound(w) && w.balance + Attached(step) < U128_LIMIT - 1 && step.DoWithdraw?
    ensures Conserves(w, ApplyMoney(w, step), 0)
  {
    var m := w.registry.money;
    if Withdraw(w.registry, Call(step.caller, 0, w.now), step.amount, step.recipient, SatSub(w.balance, step.reserve)).Ok? {
      AddRefundEffect(m.(revenue := m.revenue - step.amount), step.recipient, step.amount);
      MoneyChanges(w, ApplyMoney(w, step), 0);
    }
  }

  lemma ClaimConserves(w: World, step: Step)
    requires Sound(w) && step.DoClaimRefund?
    ensures Conserves(w, ApplyMoney(w, step), 0)
  {
    var m := w.registry.money;
    var o := ClaimRefund(w.registry, step.caller, SatSub(w.balance, step.reserve));
    if o.Ok? {
      SumWithout(m.refunds, step.caller);
      JobBegins(w, ApplyMoney(w, step), o.value.1);
    }
  }

  lemma OneYoctoEffect(w: World, step: Step)
    requires step.DoSetMainWallet? || step.DoScheduleRetraction? || step.DoCancelRetraction?
    ensures var w' := ApplyLease(w, step);
      && w'.jobs == w.jobs && w'.nextId == w.nextId && w'.registry.money == w.registry.money
      && w'.registry.config == w.registry.config && w.balance <= w'.balance
  {}

  lemma OneYoctoConserves(w: World, step: Step)
    requires Sound(w) && (step.DoSetMainWallet? || step.DoScheduleRetraction? || step.DoCancelRetraction?)
    ensures Conserves(w, ApplyLease(w, step), ApplyLease(w, step).balance - w.balance)
  {
    var w' := ApplyLease(w, step);
    OneYoctoEffect(w, step);
    MoneyChanges(w, w', w'.balance - w.balance);
  }

  lemma UnlistConserves(w: World, step: Step)
    requires Sound(w) && step.DoUnlist?
    ensures Conserves(w, ApplyTrade(w, step), ApplyTrade(w, step).balance - w.balance)
  {
    var w' := ApplyTrade(w, step);
    MoneyChanges(w, w', w'.balance - w.balance);
  }

  lemma RevokeConserves(w: World, step: Step)
    requires Sound(w) && step.DoRevokeOffer?
    ensures Conserves(w, ApplyTrade(w, step), ApplyTrade(w, step).balance - w.balance)
  {
    var w' := ApplyTrade(w, step);
    MoneyChanges(w, w', w'.balance - w.balance);
  }

  lemma ListConserves(w: World, step: Step)
    requires Sound(w) && step.DoListOrOffer?
    ensures Conserves(w, ApplyTrade(w, step), ApplyTrade(w, step).balance - w.balance)
  {
    var o := ListOrOffer(w.registry, Call(step.caller, step.attached, w.now), step.tla, step.name, step.price, step.ownerKey,
                         step.offerTo, step.isMother);
    if o.Ok? {
      assert o.value.Verify?;
      JobBegins(w, ApplyTrade(w, step), o.value);
    }
  }

  lemma RetryConserves(w: World, step: Step)
    requires Sound(w) && step.DoRetryInstall?
    ensures Conserves(w, ApplyTenancy(w, step), 0)
  {
    var o := RetryInstall(w.registry, Call(step.caller, 0, w.now), step.tla, step.name);
    if o.Ok? {
      JobBegins(w, ApplyTenancy(w, step), o.value);
    }
  }

  lemma ReclaimConserves(w: World, step: Step)
    requires Sound(w) && step.DoReclaim?
    ensures Conserves(w, ApplyTenancy(w, step), 0)
  {
    var o := ReclaimFinalize(w.registry, Call(step.caller, 0, w.now), step.tla, step.name, step.isMother);
    if o.Ok? {
      JobBegins(w, ApplyTenancy(w, step), o.value.1);
    }
  }

  /** What a rental leaves behind as far as money goes. */
  lemma RentEffect(r: Registry, c: Call, tla: AccountId, name: Bytes, ownerKey: PublicKey, mainWallet: AccountId)
    requires Rent(r, c, tla, name, ownerKey, mainWallet).Ok? && c.attached < U128_LIMIT - 1
    ensures var (r', j) := Rent(r, c, tla, name, ownerKey, mainWallet).value;
      && r'.money == r.money && r'.config == r.config && Covered(r.config.fees.creationDeposit, j)
      && (j.Mint? || (j.Chain? && j.task.ReRent?))
      && Held(j) == c.attached - (if j.Mint? then j.funding else 0) && (j.Mint? ==> j.funding <= c.attached)
  {}

  lemma RentConserves(w: World, step: Step)
    requires Sound(w) && w.balance + Attached(step) < U128_LIMIT - 1 && step.DoRent?
    ensures Conserves(w, ApplyTenancy(w, step), 0)
  {
    var c := Call(step.caller, step.attached, w.now);
    var o := Rent(w.registry, c, step.tla, step.name, step.ownerKey, step.mainWallet);
    if o.Ok? {
      RentEffect(w.registry, c, step.tla, step.name, step.ownerKey, step.mainWallet);
      JobBegins(w, Starting(w, step.attached, o), o.value.1);
    }
  }

  lemma RentPaidConserves(w: World, step: Step)
    requires Sound(w) && w.balance + Attached(step) < U128_LIMIT - 1 && step.DoRentPaid?
    ensures Conserves(w, ApplyTenancy(w, step), 0)
  {
    var o := RentPaid(w.registry, Call(step.caller, step.attached, w.now), step.tla, step.name, step.ownerKey, step.mainWallet);
    if o.Ok? {
      JobBegins(w, Starting(w, step.attached, o), o.value.1);
    }
  }

  lemma StartSaleCovers(r: Registry, now: nat, tla: AccountId, key: Bytes, buyer: AccountId, newKey: PublicKey,
                        deposit: nat, operator: Option<AccountId>, isMother: bool)
    requires operator.Some? ==> deposit == 0
    requires StartSale(r, now, tla, key, buyer, newKey, deposit, operator, isMother).Ok?
    ensures var (r', j) := StartSale(r, now, tla, key, buyer, newKey, deposit, operator, isMother).value;
      && r'.money == r.money && r'.config == r.config && Covered(r.config.fees.creationDeposit, j)
      && j.Chain? && Held(j) == deposit
  {}

  lemma BuyConserves(w: World, step: Step)
    requires Sound(w) && step.DoBuy?
    ensures Conserves(w, ApplyTrade(w, step), 0)
  {
    var key := SubAccountKey(step.tla, step.name);
    var o := StartSale(w.registry, w.now, step.tla, key, step.caller, step.newKey, step.attached, None, step.isMother);
    if o.Ok? {
      StartSaleCovers(w.registry, w.now, step.tla, key, step.caller, step.newKey, step.attached, None, step.isMother);
      JobBegins(w, Starting(w, step.attached, o), o.value.1);
    }
  }

  lemma BuyPaidConserves(w: World, step: Step)
    requires Sound(w) && step.DoBuyPaid?
    ensures Conserves(w, ApplyTrade(w, step), 0)
  {
    var key := SubAccountKey(step.tla, step.name);
    var o := StartSale(w.registry, w.now, step.tla, key, step.buyer, step.newKey, 0, Some(step.caller), step.isMother);
    if o.Ok? {
      StartSaleCovers(w.registry, w.now, step.tla, key, step.buyer, step.newKey, 0, Some(step.caller), step.isMother);
      JobBegins(w, Starting(w, 0, o), o.value.1);
    }
  }

  lemma UpdateFeesConserves(w: World, step: Step)
    requires Sound(w) && KeepsDeposit(w, step) && step.DoUpdateFees?
    ensures Conserves(w, ApplyEnvironment(w, step), 0)
  {
    var w' := ApplyEnvironment(w, step);
    assert forall i :: i in w.jobs && w.jobs[i].Mint? ==> w.registry.config.fees.creationDeposit <= w'.registry.config.fees.creationDeposit;
    assert AllCovered(w');
  }

  lemma ReceiveConserves(w: World, step: Step)
    requires Sound(w) && step.Receive?
    ensures Conserves(w, ApplyEnvironment(w, step), ApplyEnvironment(w, step).balance - w.balance)
  {
    MoneyChanges(w, ApplyEnvironment(w, step), step.amount);
  }

  lemma PlainConserves(w: World, step: Step)
    requires Sound(w)
    requires step.Tick? || step.SignersChange? || step.Configure? || step.SetBusinessCap?
    ensures Conserves(w, ApplyEnvironment(w, step), 0)
  {
    MoneyChanges(w, ApplyEnvironment(w, step), 0);
  }

  lemma FreeTlaStepConserves(w: World, step: Step)
    requires Sound(w)
    requires step.DoRegisterTla? || step.DoActivateOpenTla? || step.DoSuspendTla? || step.DoUnsuspendTla?
    ensures Conserves(w, ApplyTla(w, step), 0)
  {
    MoneyChanges(w, ApplyTla(w, step), 0);
  }

  lemma OverrideConserves(w: World, step: Step)
    requires Sound(w) && (step.ClearSaleLock? || step.ClearReclaimLock?)
    ensures Conserves(w, ApplyEnvironment(w, step), 0)
  {
    MoneyChanges(w, ApplyEnvironment(w, step), 0);
  }

  // ----- receipts -----

  lemma MintMoves(u: S.Authorities, w: World, id: nat, c: Choice)
    requires Sound(w) && id in w.jobs && w.jobs[id].Mint? && !w.jobs[id].mint.Reported?
    ensures Conserves(w, AdvanceJob(u, w, id, c), 0)
  {
    var j := w.jobs[id];
    JobMoves(w, AdvanceJob(u, w, id, c), id, j.(mint := ManagerStep(w.signers, j, c).0));
  }

  lemma MintEnds(u: S.Authorities, w: World, id: nat, c: Choice)
    requires Sound(w) && w.balance < U128_LIMIT - 1 && id in w.jobs && w.jobs[id].Mint? && w.jobs[id].mint.Reported?
    ensures Conserves(w, AdvanceJob(u, w, id, c), if Created(w.jobs[id]) then MintGain(w, w.jobs[id]) else 0)
  {
    var j, w' := w.jobs[id], AdvanceJob(u, w, id, c);
    HeldFits(w, id);
    if FundingReturned(j) {
      AddRefundEffect(w.registry.money, j.payer, j.attached);
      JobEnds(w, w', id, 0);
    } else {
      assert Created(j);
      if j.key in w.registry.subs { RentalMoneyEffect(w.registry.money, w.registry.config.fees.creationDeposit, j); }
      JobEnds(w, w', id, MintGain(w, j));
    }
  }

  lemma PassMoves(u: S.Authorities, w: World, id: nat, c: Choice)
    requires Sound(w) && id in w.jobs && w.jobs[id].Chain? && !w.jobs[id].stage.Gate? && !w.jobs[id].stage.Answered?
    ensures Conserves(w, AdvanceJob(u, w, id, c), 0)
  {
    var t, w' := w.jobs[id].task, AdvanceJob(u, w, id, c);
    JobMoves(w, w', id, Chain(t, ChainStep(u, w.signers, id, t.tla, t.key, w.jobs[id].stage, c).0));
  }

  lemma GatePasses(u: S.Authorities, w: World, id: nat, c: Choice)
    requires Sound(w) && id in w.jobs && w.jobs[id].Chain? && w.jobs[id].stage.Gate? && AfterGate(w, w.jobs[id].task, c).0.Some?
    ensures Conserves(w, AdvanceJob(u, w, id, c), 0)
  {
    var t, w' := w.jobs[id].task, AdvanceJob(u, w, id, c);
    JobMoves(w, w', id, Chain(t, AfterGate(w, t, c).0.value));
  }

  /** What the end of a chain through the extension does to the ledger. */
  ghost predicate Accounted(r: Registry, r': Registry, held: nat) {
    && Books(r'.money) && r'.config == r.config
    && r'.money.revenue + r'.money.total == r.money.revenue + r.money.total + held
  }

  lemma FailTenancyAccounted(r: Registry, t: Task)
    requires t.ReRent? && Books(r.money) && r.money.total + t.attached < U128_LIMIT
    ensures Accounted(r, FailTenancy(r, t.key, t.tla, t.payer, t.attached), t.attached)
  {
    AddRefundEffect(r.money, t.payer, t.attached);
  }

  lemma ReRentAccounted(r: Registry, t: Task, result: CallResult)
    requires t.ReRent? && Books(r.money) && t.rent <= t.attached && r.money.revenue + r.money.total + t.attached < U128_LIMIT
    ensures Accounted(r, OnReRented(r, t, result), t.attached)
  {
    if result.Failed? {
      FailTenancyAccounted(r, t);
    } else {
      ChargeEffect(r.money, t.payer, t.attached, t.rent);
    }
  }

  lemma CancelSaleAccounted(r: Registry, t: Task)
    requires t.Buy? && Books(r.money) && r.money.total + t.deposit < U128_LIMIT && (t.operator.Some? ==> t.deposit == 0)
    ensures Accounted(r, CancelSale(r, t), t.deposit)
  {
    AddRefundEffect(r.money, t.buyer, t.deposit);
  }

  lemma SoldAccounted(r: Registry, t: Task, result: CallResult)
    requires t.Buy? && Books(r.money) && r.money.revenue + r.money.total + t.deposit < U128_LIMIT
    requires if t.operator.None? then t.price <= t.deposit else t.deposit == 0
    ensures Accounted(r, OnSold(r, t, result), t.deposit)
  {
    if result == Returned(true) && t.key in r.subs {
      if t.operator.None? { SaleMoneyEffect(r.money, r.config.fees.commissionBps, r.subs[t.key].owner, t); }
    } else {
      CancelSaleAccounted(r, t);
    }
  }

  lemma ChainEnds(u: S.Authorities, w: World, id: nat, c: Choice)
    requires Sound(w) && w.balance < U128_LIMIT - 1 && id in w.jobs && w.jobs[id].Chain?
    requires w.jobs[id].stage.Answered? || (w.jobs[id].stage.Gate? && AfterGate(w, w.jobs[id].task, c).0.None?)
    ensures Conserves(w, AdvanceJob(u, w, id, c), 0)
  {
    var r, t, stage := w.registry, w.jobs[id].task, w.jobs[id].stage;
    HeldFits(w, id);
    assert Covered(r.config.fees.creationDeposit, w.jobs[id]);
    var r' := if stage.Gate? then AfterGate(w, t, c).1 else Settle(w, t, stage.result);
    assert Accounted(r, r', Held(w.jobs[id])) by {
      match t
      case ReRent(_, _, _, _, _, _) => if stage.Gate? { FailTenancyAccounted(r, t); } else { ReRentAccounted(r, t, stage.result); }
      case Buy(_, _, _, _, _, _, _, _) => if stage.Gate? { CancelSaleAccounted(r, t); } else { SoldAccounted(r, t, stage.result); }
      case Reclaim(_, _) =>
      case Retry(_, _) =>
    }
    JobEnds(w, Finish(w, r', id), id, 0);
  }

  lemma OtherEnds(u: S.Authorities, w: World, id: nat, c: Choice)
    requires Sound(w) && id in w.jobs && (w.jobs[id].Verify? || w.jobs[id].Payout?)
    requires AdvanceJob(u, w, id, c).balance < U128_LIMIT - 1
    ensures Conserves(w, AdvanceJob(u, w, id, c), 0)
  {
    var j := w.jobs[id];
    HeldFits(w, id);
    if j.Payout? && !c.ok {
      AddRefundEffect(w.registry.money, j.account, j.amount);
    }
    JobEnds(w, AdvanceJob(u, w, id, c), id, 0);
  }

  lemma AdvanceConserves(u: S.Authorities, w: World, step: Step)
    requires Sound(w) && WithinSupply(u, w, step) && step.Advance?
    ensures Conserves(w, Apply(u, w, step), Gain(u, w, step))
  {
    var id, c := step.id, step.choice;
    if id in w.jobs {
      match w.jobs[id]
      case Mint(_, _, _, _, _, _, _, _, stage) =>
        if stage.Reported? { MintEnds(u, w, id, c); } else { MintMoves(u, w, id, c); }
      case Chain(t, stage) =>
        if stage.Answered? || (stage.Gate? && AfterGate(w, t, c).0.None?) {
          ChainEnds(u, w, id, c);
        } else if stage.Gate? {
          GatePasses(u, w, id, c);
        } else {
          PassMoves(u, w, id, c);
        }
      case Verify(_, _, _, _, _) => OtherEnds(u, w, id, c);
      case Payout(_, _) => OtherEnds(u, w, id, c);
    }
  }

  // ----- every step, every run -----

  /** What a call's tokens add to the surplus. */
  function CallGain(w: World, w': World, step: Step): int {
    if step.Receive? || OneYocto(step) then w'.balance - w.balance else 0
  }

  lemma EnvironmentCallConserves(w: World, step: Step)
    requires Sound(w) && w.balance + Attached(step) < U128_LIMIT - 1 && KeepsDeposit(w, step)
    ensures Conserves(w, ApplyEnvironment(w, step), CallGain(w, ApplyEnvironment(w, step), step))
  {
    match step
    case Tick(_) => PlainConserves(w, step);
    case SignersChange(_) => PlainConserves(w, step);
    case Receive(_) => ReceiveConserves(w, step);
    case Configure(_, _, _, _, _) => PlainConserves(w, step);
    case SetBusinessCap(_, _) => PlainConserves(w, step);
    case DoUpdateFees(_, _) => UpdateFeesConserves(w, step);
    case ClearSaleLock(_, _, _) => OverrideConserves(w, step);
    case ClearReclaimLock(_, _, _) => OverrideConserves(w, step);
    case _ =>
  }

  lemma TlaCallConserves(w: World, step: Step)
    requires Sound(w) && w.balance + Attached(step) < U128_LIMIT - 1
    ensures Conserves(w, ApplyTla(w, step), CallGain(w, ApplyTla(w, step), step))
  {
    match step
    case DoRegisterTla(_, _, _, _, _) => FreeTlaStepConserves(w, step);
    case DoActivateOpenTla(_, _) => FreeTlaStepConserves(w, step);
    case DoActivateTla(_, _, _) => ActivateConserves(w, step);
    case DoRenewTla(_, _, _) => RenewTlaConserves(w, step);
    case DoSuspendTla(_, _) => FreeTlaStepConserves(w, step);
    case DoUnsuspendTla(_, _) => FreeTlaStepConserves(w, step);
    case _ =>
  }

  lemma LeaseCallConserves(w: World, step: Step)
    requires Sound(w) && w.balance + Attached(step) < U128_LIMIT - 1
    ensures Conserves(w, ApplyLease(w, step), CallGain(w, ApplyLease(w, step), step))
  {
    match step
    case DoRenewSub(_, _, _, _) => RenewSubConserves(w, step);
    case DoSetMainWallet(_, _, _, _, _) => OneYoctoConserves(w, step);
    case DoScheduleRetraction(_, _, _, _) => OneYoctoConserves(w, step);
    case DoCancelRetraction(_, _, _, _) => OneYoctoConserves(w, step);
    case _ =>
  }

  lemma TenancyCallConserves(w: World, step: Step)
    requires Sound(w) && w.balance + Attached(step) < U128_LIMIT - 1
    ensures Conserves(w, ApplyTenancy(w, step), CallGain(w, ApplyTenancy(w, step), step))
  {
    match step
    case DoRent(_, _, _, _, _, _) => RentConserves(w, step);
    case DoRentPaid(_, _, _, _, _, _) => RentPaidConserves(w, step);
    case DoRetryInstall(_, _, _) => RetryConserves(w, step);
    case DoReclaim(_, _, _, _) => ReclaimConserves(w, step);
    case _ =>
  }

  lemma TradeCallConserves(w: World, step: Step)
    requires Sound(w) && w.balance + Attached(step) < U128_LIMIT - 1
    ensures Conserves(w, ApplyTrade(w, step), CallGain(w, ApplyTrade(w, step), step))
  {
    match step
    case DoListOrOffer(_, _, _, _, _, _, _, _) => ListConserves(w, step);
    case DoUnlist(_, _, _, _) => UnlistConserves(w, step);
    case DoRevokeOffer(_, _, _, _) => RevokeConserves(w, step);
    case DoBuy(_, _, _, _, _, _) => BuyConserves(w, step);
    case DoBuyPaid(_, _, _, _, _, _) => BuyPaidConserves(w, step);
    case _ =>
  }

  lemma MoneyCallConserves(w: World, step: Step)
    requires Sound(w) && w.balance + Attached(step) < U128_LIMIT - 1
    ensures Conserves(w, ApplyMoney(w, step), CallGain(w, ApplyMoney(w, step), step))
  {
    if step.DoSweepFt? {
      SweepConserves(w, step);
    } else if step.DoClaimRefund? {
      ClaimConserves(w, step);
    } else if step.DoWithdraw? {
      WithdrawConserves(w, step);
    }
  }

  lemma CallConserves(u: S.Authorities, w: World, step: Step)
    requires Sound(w) && w.balance + Attached(step) < U128_LIMIT - 1 && KeepsDeposit(w, step) && !step.Advance?
    ensures Conserves(w, Apply(u, w, step), CallGain(w, Apply(u, w, step), step))
  {
    if OfEnvironment(step) {
      EnvironmentCallConserves(w, step);
    } else if OfTlas(step) {
      TlaCallConserves(w, step);
    } else if OfLeases(step) {
      LeaseCallConserves(w, step);
    } else if OfTenancies(step) {
      TenancyCallConserves(w, step);
    } else if OfTrade(step) {
      TradeCallConserves(w, step);
    } else {
      MoneyCallConserves(w, step);
    }
  }

  /** No step loses a token, owes one twice or saturates a sum: the surplus moves by the gain, exactly. */
  lemma StepConserves(u: S.Authorities, w: World, step: Step)
    requires Sound(w) && WithinSupply(u, w, step) && KeepsDeposit(w, step)
    ensures Sound(Apply(u, w, step))
    ensures Surplus(Apply(u, w, step)) == Surplus(w) + Gain(u, w, step)
  {
    if step.Advance? {
      AdvanceConserves(u, w, step);
    } else {
      CallConserves(u, w, step);
    }
  }

  /** Every run keeps the books balanced and the balance above everything owed. */
  lemma {:induction false} RunSolvent(u: S.Authorities, w: World, steps: seq<Step>)
    requires Fresh(w) && FundedRun(u, w, steps)
    ensures var w' := Run(u, w, steps);
      && Sound(w')
      && w'.registry.money.revenue + w'.registry.money.total + HeldSum(w'.jobs) <= w'.balance
      && w'.registry.money.total == Sum(w'.registry.money.refunds)
  {
    if steps != [] {
      RunSolvent(u, w, steps[..|steps| - 1]);
      StepConserves(u, Run(u, w, steps[..|steps| - 1]), steps[|steps| - 1]);
    } else {
      assert HeldBy(w.jobs) == map[];
    }
  }

  // ----- when the creation deposit is lowered -----

  /** What settling adds to the ledger, whatever the deposit now is. */
  lemma RentalMoneyAtAnyDeposit(m: Money, deposit: nat, j: Job)
    requires Books(m) && j.Mint? && Covered(j.funding, j) && m.revenue + m.total + j.attached < U128_LIMIT
    ensures var m' := RentalMoney(m, deposit, j);
      var rest := if j.paid then j.attached else j.attached - j.rent;
      m'.revenue + m'.total == m.revenue + m.total + j.attached - (if rest <= deposit then rest else deposit)
  {
    if j.paid {
      RefundExcessEffect(m, j.payer, j.attached, deposit);
    } else {
      RefundExcessEffect(AddRevenue(m, j.rent), j.payer, j.attached, SatAdd(j.rent, deposit, U128_LIMIT));
    }
  }

  /** Settling a created mint costs the registry tokens exactly when the deposit now charged is below the funding it sent. */
  lemma MintSettlement(u: S.Authorities, w: World, id: nat, c: Choice)
    requires id in w.jobs && Created(w.jobs[id]) && w.jobs[id].key in w.registry.subs && Books(w.registry.money)
    requires var j := w.jobs[id];
      && Covered(j.funding, j) && w.registry.money.revenue + w.registry.money.total + j.attached < U128_LIMIT
    ensures var w' := AdvanceJob(u, w, id, c);
      && Surplus(w') == Surplus(w) + MintGain(w, w.jobs[id])
      && (Surplus(w') < Surplus(w) <==> w.registry.config.fees.creationDeposit < w.jobs[id].funding)
  {
    HeldRemoved(w.jobs, id);
    RentalMoneyAtAnyDeposit(w.registry.money, w.registry.config.fees.creationDeposit, w.jobs[id]);
  }
}
