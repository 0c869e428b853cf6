/**
 The registry with everything it has in flight: mints at tla-manager, transfers through
 hos-extension to active-signer, reclaims, listing checks and payouts, and its token balance.

 Steps are functions of the state, as in the custody system. Everything else that happens at the
 active signer (recovery, self-freezes, installs by others) is the environment: between any two
 steps the signer table may become any other table.
 */
module Market {
  import opened Types
  import opened Fees
  import opened RegistryTypes
  import opened RegistryRules
  import S = SignerRules

  /** A key a chain set: for which job, on which wallet, and the keys before (none for a new signer) and after. */
  datatype Move = Move(id: nat, wallet: AccountId, from: Option<PublicKey>, to: PublicKey)

  datatype World = World(
    now: nat,
    registry: Registry,
    signers: S.Signers,
    balance: nat,
    jobs: map<nat, Job>,
    nextId: nat,
    moves: seq<Move>,
    clean: set<nat>)

  /** What the other side of a receipt decides. */
  datatype Choice = Choice(
    accepted: bool,
    ok: bool,
    clear: bool,
    isMother: bool,
    mpcKey: PublicKey,
    current: Option<PublicKey>,
    minters: set<AccountId>)

  datatype Step =
    | Tick(to: nat)
    | SignersChange(signers: S.Signers)
    | Receive(amount: nat)
    | Configure(paused: bool, admins: set<AccountId>, authorities: set<AccountId>, allowlist: set<AccountId>, parkedKey: PublicKey)
    | SetBusinessCap(tla: AccountId, cap: Option<nat>)
    | DoRegisterTla(caller: AccountId, tla: AccountId, tlaType: TlaType, premium: Premium, licensee: Option<AccountId>)
    | DoActivateOpenTla(caller: AccountId, tla: AccountId)
    | DoActivateTla(caller: AccountId, attached: nat, tla: AccountId)
    | DoRenewTla(caller: AccountId, attached: nat, tla: AccountId)
    | DoSuspendTla(caller: AccountId, tla: AccountId)
    | DoUnsuspendTla(caller: AccountId, tla: AccountId)
    | DoUpdateFees(caller: AccountId, fees: FeeConfig)
    | DoRent(caller: AccountId, attached: nat, tla: AccountId, name: Bytes, ownerKey: PublicKey, mainWallet: AccountId)
    | DoRentPaid(caller: AccountId, attached: nat, tla: AccountId, name: Bytes, ownerKey: PublicKey, mainWallet: AccountId)
    | DoRenewSub(caller: AccountId, attached: nat, tla: AccountId, name: Bytes)
    | DoSetMainWallet(caller: AccountId, attached: nat, tla: AccountId, name: Bytes, wallet: AccountId)
    | DoScheduleRetraction(caller: AccountId, attached: nat, tla: AccountId, name: Bytes)
    | DoCancelRetraction(caller: AccountId, attached: nat, tla: AccountId, name: Bytes)
    | DoRetryInstall(caller: AccountId, tla: AccountId, name: Bytes)
    | DoListOrOffer(caller: AccountId, attached: nat, tla: AccountId, name: Bytes, price: nat, ownerKey: PublicKey,
                    offerTo: Option<AccountId>, isMother: bool)
    | DoUnlist(caller: AccountId, attached: nat, tla: AccountId, name: Bytes)
    | DoRevokeOffer(caller: AccountId, attached: nat, tla: AccountId, name: Bytes)
    | DoBuy(caller: AccountId, attached: nat, tla: AccountId, name: Bytes, newKey: PublicKey, isMother: bool)
    | DoBuyPaid(caller: AccountId, tla: AccountId, name: Bytes, buyer: AccountId, newKey: PublicKey, isMother: bool)
    | DoReclaim(caller: AccountId, tla: AccountId, name: Bytes, isMother: bool)
    | DoSweepFt(caller: AccountId, attached: nat, tla: AccountId, name: Bytes, ft: AccountId, isMother: bool)
    | DoClaimRefund(caller: AccountId, reserve: nat)
    | DoWithdraw(caller: AccountId, amount: nat, recipient: AccountId, reserve: nat)
    | ClearSaleLock(caller: AccountId, tla: AccountId, name: Bytes)
    | ClearReclaimLock(caller: AccountId, tla: AccountId, name: Bytes)
    | Advance(id: nat, choice: Choice)

  // ----- calls -----

  /** A call that returned: its deposit stays, less what it sent on. */
  function Paid(w: World, r: Registry, attached: nat, sent: nat): World {
    if w.balance + attached < sent then w else w.(registry := r, balance := w.balance + attached - sent)
  }

  function Begin(w: World, r: Registry, attached: nat, sent: nat, j: Job): World {
    if w.balance + attached < sent then w
    else
      w.(registry := r, balance := w.balance + attached - sent, jobs := w.jobs[w.nextId := j], nextId := w.nextId + 1,
         clean := if IsBuy(j) && !HasTenancy(w, j.task.key) then w.clean + {w.nextId} else w.clean)
  }

  function Simple(w: World, attached: nat, o: Result<Registry>): World {
    match o
    case Err(_) => w
    case Ok(r) => Paid(w, r, attached, 0)
  }

  function Starting(w: World, attached: nat, o: Result<(Registry, Job)>): World {
    match o
    case Err(_) => w
    case Ok((r, j)) => Begin(w, r, attached, if j.Mint? then j.funding else if j.Payout? then j.amount else 0, j)
  }

  function StartingJob(w: World, attached: nat, o: Result<Job>): World {
    match o
    case Err(_) => w
    case Ok(j) => Begin(w, w.registry, attached, 0, j)
  }

  /** A mint or re-rent of `key` is in flight. */
  predicate HasTenancy(w: World, key: Bytes) {
    exists i <- w.jobs.Keys :: Tenancy(w.jobs[i]) && KeyOf(w.jobs[i]) == key
  }

  predicate Tenancy(j: Job) {
    j.Mint? || (j.Chain? && j.task.ReRent?)
  }

  predicate IsBuy(j: Job) {
    j.Chain? && j.task.Buy?
  }

  predicate IsReclaim(j: Job) {
    j.Chain? && j.task.Reclaim?
  }

  function KeyOf(j: Job): Bytes {
    if j.Mint? then j.key else if j.Chain? then j.task.key else if j.Verify? then j.listed else []
  }

  function TlaOf(j: Job): AccountId {
    if j.Mint? then j.tla else if j.Chain? then j.task.tla else []
  }

  // ----- receipts -----

  /** tla-manager, from the call that brings the funding to the outcome it reports. */
  function ManagerStep(s: S.Signers, j: Job, c: Choice): (MintStage, S.Signers)
    requires j.Mint?
  {
    match j.mint
    case Deriving =>
      if !c.accepted || !j.ownerKey.Ed25519? || !IsAccountId(j.key) then (Reported(Rejected), s)
      else if !c.ok || !c.mpcKey.Ed25519? then (Returning, s)
      else (Creating(c.mpcKey), s)
    case Creating(mpcKey) => (if c.ok then MintStage.Installing(mpcKey) else Returning, s)
    case Installing(mpcKey) =>
      (match S.Install(s, c.minters, j.tla, j.key, j.ownerKey, mpcKey)
       case Some(s') => if c.ok then (Reported(Installed), s') else (Reported(SignerPending), s)
       case None => (Reported(SignerPending), s))
    case Returning => (Reported(CreationFailed), s)
    case Reported(outcome) => (Reported(outcome), s)
  }

  /** The funding comes back to the registry exactly on the steps into `Rejected` and `CreationFailed`. */
  function FundingBack(j: Job, next: MintStage): nat
    requires j.Mint?
  {
    if !j.mint.Reported? && (next == Reported(Rejected) || next == Reported(CreationFailed)) then j.funding else 0
  }

  function AdvanceMint(u: S.Authorities, w: World, id: nat, j: Job, c: Choice): World
    requires j.Mint?
  {
    match j.mint
    case Reported(outcome) => w.(registry := OnCreated(w.registry, j, outcome), jobs := w.jobs - {id})
    case _ =>
      var (next, s) := ManagerStep(w.signers, j, c);
      w.(signers := s, balance := w.balance + FundingBack(j, next), jobs := w.jobs[id := j.(mint := next)])
  }

  /** hos-extension and active-signer: the next stage, the signer table, and the key move if there was one. */
  function ChainStep(u: S.Authorities, s: S.Signers, id: nat, tla: AccountId, key: Bytes, stage: Stage, c: Choice)
    : (Stage, S.Signers, seq<Move>)
  {
    match stage
    case AtExtension(newKey, expected) =>
      if c.ok && newKey.Ed25519? && (expected.Some? ==> expected.value.Ed25519?) then (AtSigner(newKey, expected), s, [])
      else (Answered(newKey, Failed), s, [])
    case AtSigner(newKey, expected) =>
      if !c.ok then (Stage.Swapped(newKey, Failed), s, [])
      else
        (match S.SwapOwner(u, s, u.marketplace, key, newKey, expected)
         case Rejected => (Stage.Swapped(newKey, Failed), s, [])
         case Voided => (Stage.Swapped(newKey, Returned(false)), s, [])
         case Swapped(s') =>
           (Stage.Swapped(newKey, Returned(true)), s', [Move(id, key, Some(s[key].publicKey), s'[key].publicKey)]))
    case Swapped(newKey, result) => (Answered(newKey, Returned(result == Returned(true))), s, [])
    case AtManager(installKey) =>
      (match S.Install(s, c.minters, tla, key, installKey, c.mpcKey)
       case Some(s') =>
         if c.ok then (Answered(installKey, Returned(true)), s', [Move(id, key, None, s'[key].publicKey)])
         else (Answered(installKey, Failed), s, [])
       case None => (Answered(installKey, Failed), s, []))
    case _ => (stage, s, [])
  }

  function Pass(u: S.Authorities, w: World, id: nat, t: Task, stage: Stage, c: Choice): World {
    var (next, s, moved) := ChainStep(u, w.signers, id, t.tla, t.key, stage, c);
    w.(signers := s, moves := w.moves + moved, jobs := w.jobs[id := Chain(t, next)])
  }

  function Finish(w: World, r: Registry, id: nat): World {
    w.(registry := r, jobs := w.jobs - {id})
  }

  /** The asset gate's callback: the next stage, or the registry after calling the chain off. */
  function AfterGate(w: World, t: Task, c: Choice): (Option<Stage>, Registry) {
    match t
    case ReRent(tla, key, payer, ownerKey, _, attached) =>
      if c.clear then (Some(AtExtension(ownerKey, None)), w.registry)
      else (None, FailTenancy(w.registry, key, tla, payer, attached))
    case Buy(_, _, _, newKey, _, _, ownerKey, _) =>
      if c.clear then (Some(AtExtension(newKey, Some(ownerKey))), w.registry) else (None, CancelSale(w.registry, t))
    case Reclaim(_, key) =>
      (match GateReclaim(w.registry, w.now, t, c.clear, c.isMother)
       case None => (None, ReleaseReclaim(w.registry, key))
       case Some(stage) => (Some(stage), w.registry))
    case Retry(_, _) => (None, w.registry)
  }

  /** The registry's callback at the end of the chain. */
  function Settle(w: World, t: Task, result: CallResult): Registry {
    match t
    case ReRent(_, _, _, _, _, _) => OnReRented(w.registry, t, result)
    case Buy(_, _, _, _, _, _, _, _) => OnSold(w.registry, t, result)
    case Reclaim(_, _) => OnReclaimed(w.registry, w.now, t, result)
    case Retry(_, key) =>
      if result.Failed? then w.registry else w.registry.(signerPending := w.registry.signerPending - {key})
  }

  function AdvanceChain(u: S.Authorities, w: World, id: nat, t: Task, stage: Stage, c: Choice): World {
    match stage
    case Gate =>
      var (next, r) := AfterGate(w, t, c);
      if next.Some? then w.(jobs := w.jobs[id := Chain(t, next.value)]) else Finish(w, r, id)
    case Answered(_, result) => Finish(w, Settle(w, t, result), id)
    case _ => Pass(u, w, id, t, stage, c)
  }

  function AdvanceJob(u: S.Authorities, w: World, id: nat, c: Choice): World {
    if id !in w.jobs then w
    else
      var j := w.jobs[id];
      match j
      case Mint(_, _, _, _, _, _, _, _, _) => AdvanceMint(u, w, id, j, c)
      case Chain(t, stage) => AdvanceChain(u, w, id, t, stage, c)
      case Verify(_, _, _, _, _) => Finish(w, OnVerified(w.registry, j, c.current), id)
      case Payout(_, amount) =>
        Finish(w, OnPayout(w.registry, j, c.ok), id).(balance := w.balance + if c.ok then 0 else amount)
  }

  // ----- one step -----

  /** Time, other contracts, donations and the administrators' settings. */
  function ApplyEnvironment(w: World, step: Step): World {
    var r := w.registry;
    match step
    case Tick(to) => if w.now <= to then w.(now := to) else w
    case SignersChange(s) => w.(signers := s)
    case Receive(amount) => w.(balance := w.balance + amount)
    case Configure(paused, admins, authorities, allowlist, parkedKey) =>
      w.(registry := r.(config := r.config.(paused := paused, admins := admins, paymentAuthorities := authorities,
                                            allowlist := allowlist, parkedKey := parkedKey)))
    case SetBusinessCap(tla, cap) =>
      var caps := if cap.None? then r.config.businessCap - {tla} else r.config.businessCap[tla := cap.value];
      if cap.Some? && cap.value >= U32_LIMIT then w else w.(registry := r.(config := r.config.(businessCap := caps)))
    case DoUpdateFees(caller, fees) =>
      if fees.businessMaxSubs < U32_LIMIT then Simple(w, 0, UpdateFees(r, Call(caller, 0, w.now), fees)) else w
    case ClearSaleLock(caller, tla, name) => Simple(w, 0, AdminClearSettling(r, Call(caller, 0, w.now), tla, name))
    case ClearReclaimLock(caller, tla, name) => Simple(w, 0, AdminClearReclaim(r, Call(caller, 0, w.now), tla, name))
    case _ => w
  }

  /** TLA leases. */
  function ApplyTla(w: World, step: Step): World {
    var r := w.registry;
    match step
    case DoRegisterTla(caller, tla, tlaType, premium, licensee) =>
      Simple(w, 0, RegisterTla(r, Call(caller, 0, w.now), tla, tlaType, premium, licensee))
    case DoActivateOpenTla(caller, tla) => Simple(w, 0, ActivateOpenTla(r, Call(caller, 0, w.now), tla))
    case DoActivateTla(caller, attached, tla) => Simple(w, attached, ActivateTla(r, Call(caller, attached, w.now), tla))
    case DoRenewTla(caller, attached, tla) => Simple(w, attached, RenewTla(r, Call(caller, attached, w.now), tla))
    case DoSuspendTla(caller, tla) => Simple(w, 0, SuspendTla(r, Call(caller, 0, w.now), tla))
    case DoUnsuspendTla(caller, tla) => Simple(w, 0, UnsuspendTla(r, Call(caller, 0, w.now), tla))
    case _ => w
  }

  /** Calls on one sub-account's lease. */
  function ApplyLease(w: World, step: Step): World {
    var r := w.registry;
    match step
    case DoRenewSub(caller, attached, tla, name) => Simple(w, attached, RenewSub(r, Call(caller, attached, w.now), tla, name))
    case DoSetMainWallet(caller, attached, tla, name, wallet) =>
      Simple(w, attached, SetMainWallet(r, Call(caller, attached, w.now), tla, name, wallet))
    case DoScheduleRetraction(caller, attached, tla, name) =>
      Simple(w, attached, ScheduleRetraction(r, Call(caller, attached, w.now), tla, name))
    case DoCancelRetraction(caller, attached, tla, name) =>
      Simple(w, attached, CancelRetraction(r, Call(caller, attached, w.now), tla, name))
    case _ => w
  }

  /** Renting, installing and reclaiming. */
  function ApplyTenancy(w: World, step: Step): World {
    var r := w.registry;
    match step
    case DoRent(caller, attached, tla, name, ownerKey, mainWallet) =>
      Starting(w, attached, Rent(r, Call(caller, attached, w.now), tla, name, ownerKey, mainWallet))
    case DoRentPaid(caller, attached, tla, name, ownerKey, mainWallet) =>
      Starting(w, attached, RentPaid(r, Call(caller, attached, w.now), tla, name, ownerKey, mainWallet))
    case DoRetryInstall(caller, tla, name) => StartingJob(w, 0, RetryInstall(r, Call(caller, 0, w.now), tla, name))
    case DoReclaim(caller, tla, name, isMother) => Starting(w, 0, ReclaimFinalize(r, Call(caller, 0, w.now), tla, name, isMother))
    case _ => w
  }

  /** The marketplace. */
  function ApplyTrade(w: World, step: Step): World {
    var r := w.registry;
    match step
    case DoListOrOffer(caller, attached, tla, name, price, ownerKey, offerTo, isMother) =>
      StartingJob(w, attached, ListOrOffer(r, Call(caller, attached, w.now), tla, name, price, ownerKey, offerTo, isMother))
    case DoUnlist(caller, attached, tla, name) => Simple(w, attached, Unlist(r, Call(caller, attached, w.now), tla, name))
    case DoRevokeOffer(caller, attached, tla, name) => Simple(w, attached, RevokeOffer(r, Call(caller, attached, w.now), tla, name))
    case DoBuy(caller, attached, tla, name, newKey, isMother) =>
      Starting(w, attached, BuySub(r, Call(caller, attached, w.now), tla, name, newKey, isMother))
    case DoBuyPaid(caller, tla, name, buyer, newKey, isMother) =>
      Starting(w, 0, BuySubPaid(r, Call(caller, 0, w.now), tla, name, buyer, newKey, isMother))
    case _ => w
  }

  /** Sweeps and money out. */
  function ApplyMoney(w: World, step: Step): World {
    var r := w.registry;
    match step
    case DoSweepFt(caller, attached, tla, name, ft, isMother) =>
      (match SweepFt(r, Call(caller, attached, w.now), tla, name, ft, isMother)
       case Err(_) => w
       case Ok(r') => Paid(w, r', attached, SWEEP_DEPOSIT))
    case DoClaimRefund(caller, reserve) => Starting(w, 0, ClaimRefund(r, caller, SatSub(w.balance, reserve)))
    case DoWithdraw(caller, amount, recipient, reserve) =>
      Simple(w, 0, Withdraw(r, Call(caller, 0, w.now), amount, recipient, SatSub(w.balance, reserve)))
    case _ => w
  }

  predicate OfEnvironment(step: Step) {
    step.Tick? || step.SignersChange? || step.Receive? || step.Configure? ||
    step.SetBusinessCap? || step.DoUpdateFees? || step.ClearSaleLock? || step.ClearReclaimLock?
  }

  predicate OfTlas(step: Step) {
    step.DoRegisterTla? || step.DoActivateOpenTla? || step.DoActivateTla? || step.DoRenewTla? ||
    step.DoSuspendTla? || step.DoUnsuspendTla?
  }

  predicate OfLeases(step: Step) {
    step.DoRenewSub? || step.DoSetMainWallet? || step.DoScheduleRetraction? || step.DoCancelRetraction?
  }

  predicate OfTenancies(step: Step) {
    step.DoRent? || step.DoRentPaid? || step.DoRetryInstall? || step.DoReclaim?
  }

  predicate OfTrade(step: Step) {
    step.DoListOrOffer? || step.DoUnlist? || step.DoRevokeOffer? || step.DoBuy? ||
    step.DoBuyPaid?
  }

  function Apply(u: S.Authorities, w: World, step: Step): World {
    if step.Advance? then AdvanceJob(u, w, step.id, step.choice)
    else if OfEnvironment(step) then ApplyEnvironment(w, step)
    else if OfTlas(step) then ApplyTla(w, step)
    else if OfLeases(step) then ApplyLease(w, step)
    else if OfTenancies(step) then ApplyTenancy(w, step)
    else if OfTrade(step) then ApplyTrade(w, step)
    else ApplyMoney(w, step)
  }

  function Run(u: S.Authorities, w: World, steps: seq<Step>): World {
    if steps == [] then w else Apply(u, Run(u, w, steps[..|steps| - 1]), steps[|steps| - 1])
  }

  // ----- where runs start -----

  /** A registry just created: nothing registered, nothing owed, nothing in flight. */
  predicate Fresh(w: World) {
    && w.jobs == map[] && w.moves == [] && w.clean == {} && w.nextId == 0
    && w.registry.tlas == map[] && w.registry.subs == map[] && w.registry.parked == map[]
    && w.registry.board == Board(map[], map[])
    && w.registry.signerPending == map[] && w.registry.reclaimPending == {}
    && w.registry.counts == Counts(map[], 0)
    && w.registry.money == Money(0, map[], 0)
    && w.registry.config.businessCap == map[] && w.registry.config.fees.businessMaxSubs < U32_LIMIT
  }
}
