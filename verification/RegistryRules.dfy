/** What each registry call and callback does. */
module RegistryRules {
  import opened Types
  import opened Fees
  import opened RegistryTypes
  import opened Names

  // ----- promise chains in flight -----

  datatype MintOutcome = Rejected | CreationFailed | Installed | SignerPending

  /** Where a fresh mint is: in tla-manager's hands, its funding on the way back, or reported. */
  datatype MintStage =
    | Deriving
    | Creating(mpcKey: PublicKey)
    | Installing(mpcKey: PublicKey)
    | Returning
    | Reported(outcome: MintOutcome)

  /** Where a chain through the extension is. `Answered` holds the key asked for and what the registry's callback will see. */
  datatype Stage =
    | Gate
    | AtExtension(newKey: PublicKey, expected: Option<PublicKey>)
    | AtSigner(newKey: PublicKey, expected: Option<PublicKey>)
    | Swapped(newKey: PublicKey, result: CallResult)
    | AtManager(installKey: PublicKey)
    | Answered(newKey: PublicKey, result: CallResult)

  /** What a chain through the extension (or, for an installation, the manager) is for. */
  datatype Task =
    | ReRent(tla: AccountId, key: Bytes, payer: AccountId, ownerKey: PublicKey, rent: nat, attached: nat)
    | Buy(tla: AccountId, key: Bytes, buyer: AccountId, newKey: PublicKey, price: nat, deposit: nat,
          ownerKey: PublicKey, operator: Option<AccountId>)
    | Reclaim(tla: AccountId, key: Bytes)
    | Retry(tla: AccountId, key: Bytes)

  datatype Job =
    | Mint(tla: AccountId, key: Bytes, payer: AccountId, ownerKey: PublicKey, rent: nat, attached: nat, funding: nat,
           paid: bool, mint: MintStage)
    | Chain(task: Task, stage: Stage)
    | Verify(listed: Bytes, seller: AccountId, price: nat, listedKey: PublicKey, offerTo: Option<AccountId>)
    | Payout(account: AccountId, amount: nat)

  // ----- TLAs -----

  function RegisterTla(r: Registry, c: Call, tla: AccountId, tlaType: TlaType, premium: Premium,
                       licensee: Option<AccountId>): Result<Registry> {
    if c.caller !in r.config.admins then Err(OnlyAdmin)
    else if tla in r.tlas then Err(TlaAlreadyRegistered)
    else if tlaType == Business && licensee.None? then Err(BusinessTlaRequiresLicensee)
    else Ok(r.(tlas := r.tlas[tla := TlaEntry(tlaType, Registered, licensee, premium, 0, 0)]))
  }

  function StartLease(r: Registry, tla: AccountId, now: nat): Registry
    requires tla in r.tlas
  {
    r.(tlas := r.tlas[tla := r.tlas[tla].(status := Active, activatedAt := now, expiresAt := SatAdd(now, ONE_YEAR_NS, U64_LIMIT))])
  }

  function ActivateOpenTla(r: Registry, c: Call, tla: AccountId): Result<Registry> {
    if c.caller !in r.config.admins then Err(OnlyAdmin)
    else if tla !in r.tlas then Err(TlaNotFound)
    else if r.tlas[tla].status != Registered then Err(TlaNotInRegisteredState)
    else if r.tlas[tla].tlaType != Open then Err(WrongActivationEndpoint)
    else Ok(StartLease(r, tla, c.now))
  }

  function ActivateTla(r: Registry, c: Call, tla: AccountId): Result<Registry> {
    var required := SatAdd(r.config.fees.tlaAllocationFee, BaseRent(|tla| % 256, r.config.fees), U128_LIMIT);
    if r.config.paused then Err(Paused)
    else if c.attached < required then Err(InsufficientPayment)
    else if tla !in r.tlas then Err(TlaNotFound)
    else
      var t := r.tlas[tla];
      if t.status != Registered then Err(TlaNotInRegisteredState)
      else if t.tlaType != Business then Err(WrongActivationEndpoint)
      else if t.licensee.None? then Err(BusinessTlaMissingLicensee)
      else if c.caller != t.licensee.value then Err(OnlyLicensee)
      else Ok(StartLease(r, tla, c.now).(money := Charge(r.money, c.caller, c.attached, required)))
  }

  function RenewTla(r: Registry, c: Call, tla: AccountId): Result<Registry> {
    var rent := BaseRent(|tla| % 256, r.config.fees);
    if r.config.paused then Err(Paused)
    else if tla !in r.tlas then Err(TlaNotFound)
    else
      var t := r.tlas[tla];
      if t.status != Active then Err(TlaNotActive)
      else if c.now >= SatAdd(t.expiresAt, r.config.graceNs, U64_LIMIT) then Err(TlaPastGracePeriod)
      else if t.tlaType == Business && t.licensee.None? then Err(BusinessTlaMissingLicensee)
      else if t.tlaType == Business && c.caller != t.licensee.value then Err(OnlyLicensee)
      else if t.tlaType != Business && c.caller !in r.config.admins then Err(OnlyAdmin)
      else if c.attached < rent then Err(InsufficientPayment)
      else
        Ok(r.(tlas := r.tlas[tla := t.(expiresAt := SatAdd(Max(c.now, t.expiresAt), ONE_YEAR_NS, U64_LIMIT))],
              money := Charge(r.money, c.caller, c.attached, rent)))
  }

  function SuspendTla(r: Registry, c: Call, tla: AccountId): Result<Registry> {
    if c.caller !in r.config.admins then Err(OnlyAdmin)
    else if tla !in r.tlas then Err(TlaNotFound)
    else if r.tlas[tla].status == Registered then Err(TlaNotActive)
    else Ok(r.(tlas := r.tlas[tla := r.tlas[tla].(status := Suspended)]))
  }

  function UnsuspendTla(r: Registry, c: Call, tla: AccountId): Result<Registry> {
    if c.caller !in r.config.admins then Err(OnlyAdmin)
    else if tla !in r.tlas then Err(TlaNotFound)
    else if r.tlas[tla].status != Suspended then Err(TlaNotSuspended)
    else if r.tlas[tla].tlaType == Business && r.tlas[tla].licensee.None? then Err(BusinessTlaMissingLicensee)
    else Ok(r.(tlas := r.tlas[tla := r.tlas[tla].(status := Active)]))
  }

  function UpdateFees(r: Registry, c: Call, fees: FeeConfig): Result<Registry> {
    if c.caller !in r.config.admins then Err(OnlyAdmin)
    else if fees.rentTier5 == 0 && fees.rentTier8 == 0 && fees.rentTier10 == 0 && fees.rentTier12Plus == 0 then Err(AllRentTiersZero)
    else if fees.creationDeposit == 0 then Err(CreationDepositZero)
    else if fees.commissionBps > 10_000 then Err(InvalidCommissionRate)
    else Ok(r.(config := r.config.(fees := fees)))
  }

  // ----- renting -----

  function LicenseeCheck(t: TlaEntry, who: AccountId): Option<Error> {
    if t.tlaType != Business then None
    else if t.licensee.None? then Some(BusinessTlaMissingLicensee)
    else if who != t.licensee.value then Some(OnlyLicensee)
    else None
  }

  /** The new lease, with the Business cap checked and its count raised. */
  function Admit(r: Registry, now: nat, tla: AccountId, key: Bytes, owner: AccountId, mainWallet: AccountId): Result<Registry> {
    if IsBusiness(r, tla) && BusinessCount(r.counts, tla) >= BusinessCap(r.config, tla) then Err(MaxBusinessSubsReached)
    else
      Ok(r.(subs := r.subs[key := SubEntry(owner, tla, mainWallet, now, SatAdd(now, ONE_YEAR_NS, U64_LIMIT), None)],
            counts := if IsBusiness(r, tla) then BumpBusiness(r.counts, tla) else r.counts))
  }

  function Rent(r: Registry, c: Call, tla: AccountId, name: Bytes, ownerKey: PublicKey, mainWallet: AccountId)
    : Result<(Registry, Job)>
  {
    var key := SubAccountKey(tla, name);
    if r.config.paused then Err(Paused)
    else if !ValidName(name) then Err(InvalidName)
    else if key in r.subs then Err(SubAccountNameTaken)
    else if mainWallet == key then Err(MainWalletEqualsSubAccount)
    else if tla !in r.tlas then Err(TlaNotFound)
    else
      var t := r.tlas[tla];
      if !AcceptingRentals(c.now, t) then Err(TlaNotAcceptingRentals)
      else if LicenseeCheck(t, c.caller).Some? then Err(LicenseeCheck(t, c.caller).value)
      else
        var rent := CalculateRent(t.tlaType, t.premium, tla, name, r.config.fees);
        var total := if key in r.parked then rent else SatAdd(rent, r.config.fees.creationDeposit, U128_LIMIT);
        if c.attached < total then Err(InsufficientPayment)
        else
          match Admit(r, c.now, tla, key, c.caller, mainWallet)
          case Err(e) => Err(e)
          case Ok(r1) =>
            if key in r.parked then
              if !IsAccountId(key) then Err(InvalidSubAccountId)
              else
                var stage := if r.config.allowlist == {} then AtExtension(ownerKey, None) else Gate;
                Ok((r1, Chain(ReRent(tla, key, c.caller, ownerKey, rent, c.attached), stage)))
            else Ok((r1, Mint(tla, key, c.caller, ownerKey, rent, c.attached, r.config.fees.creationDeposit, false, Deriving)))
  }

  function RentPaid(r: Registry, c: Call, tla: AccountId, name: Bytes, ownerKey: PublicKey, mainWallet: AccountId)
    : Result<(Registry, Job)>
  {
    var key := SubAccountKey(tla, name);
    if r.config.paused then Err(Paused)
    else if c.caller !in r.config.paymentAuthorities then Err(OnlyPaymentAuthority)
    else if !ValidName(name) then Err(InvalidName)
    else if !ownerKey.Ed25519? then Err(NotEd25519)
    else if key in r.subs || key in r.parked then Err(SubAccountNameTaken)
    else if mainWallet == key then Err(MainWalletEqualsSubAccount)
    else if tla !in r.tlas then Err(TlaNotFound)
    else
      var t := r.tlas[tla];
      if !AcceptingRentals(c.now, t) then Err(TlaNotAcceptingRentals)
      else if LicenseeCheck(t, mainWallet).Some? then Err(LicenseeCheck(t, mainWallet).value)
      else
        var rent := CalculateRent(t.tlaType, t.premium, tla, name, r.config.fees);
        if c.attached < r.config.fees.creationDeposit then Err(InsufficientPayment)
        else
          match Admit(r, c.now, tla, key, c.caller, mainWallet)
          case Err(e) => Err(e)
          case Ok(r1) => Ok((r1, Mint(tla, key, c.caller, ownerKey, rent, c.attached, r.config.fees.creationDeposit, true, Deriving)))
  }

  function RenewSub(r: Registry, c: Call, tla: AccountId, name: Bytes): Result<Registry> {
    var key := SubAccountKey(tla, name);
    if r.config.paused then Err(Paused)
    else if key !in r.subs then Err(SubAccountNotFound)
    else
      var s := r.subs[key];
      if c.now >= SatAdd(s.expiresAt, r.config.graceNs, U64_LIMIT) then Err(SubAccountPastGracePeriod)
      else if c.caller != s.owner then Err(OnlyOwner)
      else if s.retractionAt.Some? then Err(RetractionPending)
      else if tla !in r.tlas then Err(TlaNotFound)
      else if TlaLifecycle(c.now, r.tlas[tla], r.config.graceNs) == Reclaimable then Err(TlaPastGracePeriod)
      else
        var rent := CalculateRent(r.tlas[tla].tlaType, r.tlas[tla].premium, tla, name, r.config.fees);
        if c.attached < rent then Err(InsufficientPayment)
        else
          Ok(r.(subs := r.subs[key := s.(expiresAt := SatAdd(Max(c.now, s.expiresAt), ONE_YEAR_NS, U64_LIMIT))],
                money := Charge(r.money, c.caller, c.attached, rent)))
  }

  function SetMainWallet(r: Registry, c: Call, tla: AccountId, name: Bytes, wallet: AccountId): Result<Registry> {
    var key := SubAccountKey(tla, name);
    if c.attached != 1 then Err(RequiresOneYocto)
    else if r.config.paused then Err(Paused)
    else if Settling(r.board, key) then Err(SaleInProgress)
    else if wallet == key then Err(MainWalletEqualsSubAccount)
    else if key !in r.subs then Err(SubAccountNotFound)
    else if c.caller != r.subs[key].owner then Err(OnlyOwner)
    else Ok(r.(subs := r.subs[key := r.subs[key].(mainWallet := wallet)]))
  }

  function ScheduleRetraction(r: Registry, c: Call, tla: AccountId, name: Bytes): Result<Registry> {
    var key := SubAccountKey(tla, name);
    if c.attached != 1 then Err(RequiresOneYocto)
    else if r.config.paused then Err(Paused)
    else if tla !in r.tlas then Err(TlaNotFound)
    else if r.tlas[tla].tlaType != Business then Err(NotBusinessTla)
    else if key !in r.subs then Err(SubAccountNotFound)
    else if c.caller != r.subs[key].owner then Err(OnlyOwner)
    else if r.subs[key].retractionAt.Some? then Err(RetractionAlreadyScheduled)
    else Ok(r.(subs := r.subs[key := r.subs[key].(retractionAt := Some(c.now))]))
  }

  function CancelRetraction(r: Registry, c: Call, tla: AccountId, name: Bytes): Result<Registry> {
    var key := SubAccountKey(tla, name);
    if c.attached != 1 then Err(RequiresOneYocto)
    else if r.config.paused then Err(Paused)
    else if key !in r.subs then Err(SubAccountNotFound)
    else if c.caller != r.subs[key].owner then Err(OnlyOwner)
    else if r.subs[key].retractionAt.None? then Err(NoRetractionScheduled)
    else if c.now >= SatAdd(r.subs[key].retractionAt.value, r.config.fees.retractionNoticeNs, U64_LIMIT) then Err(RetractionAlreadyElapsed)
    else Ok(r.(subs := r.subs[key := r.subs[key].(retractionAt := None)]))
  }

  function RetryInstall(r: Registry, c: Call, tla: AccountId, name: Bytes): Result<Job> {
    var key := SubAccountKey(tla, name);
    if r.config.paused then Err(Paused)
    else if key !in r.signerPending then Err(SignerNotPending)
    else if key !in r.subs then Err(SubAccountNotFound)
    else if c.caller != r.subs[key].owner then Err(OnlyOwner)
    else if !IsAccountId(key) then Err(InvalidSubAccountId)
    else Ok(Chain(Retry(tla, key), AtManager(r.signerPending[key])))
  }

  // ----- mint and re-rent settlement -----

  /** `settle_failed_mint`. */
  function FailTenancy(r: Registry, key: Bytes, tla: AccountId, payer: AccountId, attached: nat): Registry {
    r.(subs := r.subs - {key},
       counts := if IsBusiness(r, tla) then DropBusiness(r.counts, tla) else r.counts,
       money := AddPendingRefund(r.money, payer, attached))
  }

  function CountSub(c: Counts): Counts {
    c.(subs := SatAdd(c.subs, 1, U64_LIMIT))
  }

  /** `record_rental` / `record_paid_rental`: the deposit charged is the one configured now, not at the rent. */
  function RentalMoney(m: Money, deposit: nat, j: Job): Money
    requires j.Mint?
  {
    if j.paid then RefundExcess(m, j.payer, j.attached, deposit)
    else RefundExcess(AddRevenue(m, j.rent), j.payer, j.attached, SatAdd(j.rent, deposit, U128_LIMIT))
  }

  function RecordRental(r: Registry, j: Job): Registry
    requires j.Mint?
  {
    r.(counts := CountSub(r.counts), money := RentalMoney(r.money, r.config.fees.creationDeposit, j))
  }

  /** A callback that finds no entry panics, which undoes it. */
  function OnCreated(r: Registry, j: Job, outcome: MintOutcome): Registry
    requires j.Mint?
  {
    match outcome
    case Installed => if j.key in r.subs then RecordRental(r, j) else r
    case SignerPending =>
      if j.key in r.subs then
        RecordRental(r, j).(signerPending := r.signerPending[j.key := j.ownerKey])
      else r
    case _ => FailTenancy(r, j.key, j.tla, j.payer, j.attached)
  }

  function OnReRented(r: Registry, t: Task, result: CallResult): Registry
    requires t.ReRent?
  {
    if result.Failed? then FailTenancy(r, t.key, t.tla, t.payer, t.attached)
    else
      r.(parked := r.parked - {t.key},
         counts := CountSub(r.counts),
         money := Charge(r.money, t.payer, t.attached, t.rent))
  }

  // ----- the marketplace -----

  /** `isMother` stands for a positive `mother_use_count` of the account. */
  function Sellable(r: Registry, now: nat, tla: AccountId, key: Bytes, isMother: bool): Result<AccountId> {
    if !IsAccountId(key) then Err(InvalidSubAccountId)
    else if isMother then Err(SubAccountIsMother)
    else if key in r.signerPending then Err(SubAccountNotSellable)
    else if key !in r.subs then Err(SubAccountNotFound)
    else
      var s := r.subs[key];
      if s.tlaId != tla then Err(SubAccountTlaMismatch)
      else if s.retractionAt.Some? then Err(RetractionPending)
      else if tla !in r.tlas then Err(TlaNotFound)
      else if r.tlas[tla].tlaType == Business then Err(BusinessSubNotResellable)
      else if r.tlas[tla].status != Active then Err(SubAccountNotSellable)
      else if EffectiveLifecycle(now, s, r.tlas[tla], r.config.fees.retractionNoticeNs, r.config.graceNs) != Live then Err(SubAccountNotSellable)
      else Ok(s.owner)
  }

  /** `list_sub_account` and `accept_offer` up to the query for the live key. */
  function ListOrOffer(r: Registry, c: Call, tla: AccountId, name: Bytes, price: nat, ownerKey: PublicKey,
                       offerTo: Option<AccountId>, isMother: bool): Result<Job> {
    var key := SubAccountKey(tla, name);
    if c.attached != 1 then Err(RequiresOneYocto)
    else if r.config.paused then Err(Paused)
    else if !ValidName(name) then Err(InvalidName)
    else if price == 0 then Err(InvalidPrice)
    else if !ownerKey.Ed25519? then Err(NotEd25519)
    else if Settling(r.board, key) then Err(SaleInProgress)
    else
      match Sellable(r, c.now, tla, key, isMother)
      case Err(e) => Err(e)
      case Ok(owner) =>
        if c.caller != owner then Err(OnlyOwner) else Ok(Verify(key, owner, price, ownerKey, offerTo))
  }

  /** `on_listing_verified` / `on_offer_verified`; `current` is None when the query failed or found no signer. */
  function OnVerified(r: Registry, j: Job, current: Option<PublicKey>): Registry
    requires j.Verify?
  {
    if current != Some(j.listedKey) || !j.listedKey.Ed25519? then r
    else if j.listed !in r.subs || r.subs[j.listed].owner != j.seller then r
    else
      match j.offerTo
      case None =>
        if j.listed in r.board.listings && r.board.listings[j.listed].settling then r
        else r.(board := r.board.(listings := r.board.listings[j.listed := Listing(j.price, false, j.listedKey)]))
      case Some(buyer) =>
        if j.listed in r.board.offers && r.board.offers[j.listed].settling then r
        else r.(board := r.board.(offers := r.board.offers[j.listed := Offer(buyer, j.price, false, j.listedKey)]))
  }

  function Unlist(r: Registry, c: Call, tla: AccountId, name: Bytes): Result<Registry> {
    var key := SubAccountKey(tla, name);
    if c.attached != 1 then Err(RequiresOneYocto)
    else if r.config.paused then Err(Paused)
    else if !ValidName(name) then Err(InvalidName)
    else if Settling(r.board, key) then Err(SaleInProgress)
    else if key !in r.board.listings then Err(NotListed)
    else if key !in r.subs then Err(SubAccountNotFound)
    else if c.caller != r.subs[key].owner then Err(OnlyOwner)
    else Ok(r.(board := r.board.(listings := r.board.listings - {key})))
  }

  function RevokeOffer(r: Registry, c: Call, tla: AccountId, name: Bytes): Result<Registry> {
    var key := SubAccountKey(tla, name);
    if c.attached != 1 then Err(RequiresOneYocto)
    else if r.config.paused then Err(Paused)
    else if !ValidName(name) then Err(InvalidName)
    else if Settling(r.board, key) then Err(SaleInProgress)
    else if key !in r.board.offers then Err(NoAcceptedOffer)
    else if key !in r.subs then Err(SubAccountNotFound)
    else if c.caller != r.subs[key].owner then Err(OnlyOwner)
    else Ok(r.(board := r.board.(offers := r.board.offers - {key})))
  }

  /** `resolve_and_lock_sale` and its paid form, which has no deposit to check: price and listed key. */
  function LockSale(b: Board, key: Bytes, buyer: AccountId, deposit: Option<nat>): Result<(Board, nat, PublicKey)> {
    if key in b.offers && b.offers[key].buyer == buyer then
      var o := b.offers[key];
      if deposit.Some? && deposit.value < o.price then Err(PriceNotMet)
      else Ok((b.(offers := b.offers[key := o.(settling := true)]), o.price, o.ownerKey))
    else if key in b.listings then
      var l := b.listings[key];
      if deposit.Some? && deposit.value < l.price then Err(PriceNotMet)
      else Ok((b.(listings := b.listings[key := l.(settling := true)]), l.price, l.ownerKey))
    else Err(NotListed)
  }

  /** Common tail of `buy_sub_account` and `buy_sub_account_paid`. */
  function StartSale(r: Registry, now: nat, tla: AccountId, key: Bytes, buyer: AccountId, newKey: PublicKey,
                     deposit: nat, operator: Option<AccountId>, isMother: bool): Result<(Registry, Job)> {
    if Settling(r.board, key) then Err(SaleInProgress)
    else
      match Sellable(r, now, tla, key, isMother)
      case Err(e) => Err(e)
      case Ok(_) =>
        match LockSale(r.board, key, buyer, if operator.None? then Some(deposit) else None)
        case Err(e) => Err(e)
        case Ok((board, price, ownerKey)) =>
          var stage := if r.config.allowlist == {} then AtExtension(newKey, Some(ownerKey)) else Gate;
          Ok((r.(board := board), Chain(Buy(tla, key, buyer, newKey, price, deposit, ownerKey, operator), stage)))
  }

  function BuySub(r: Registry, c: Call, tla: AccountId, name: Bytes, newKey: PublicKey, isMother: bool): Result<(Registry, Job)> {
    if r.config.paused then Err(Paused)
    else if !ValidName(name) then Err(InvalidName)
    else if !newKey.Ed25519? then Err(NotEd25519)
    else StartSale(r, c.now, tla, SubAccountKey(tla, name), c.caller, newKey, c.attached, None, isMother)
  }

  function BuySubPaid(r: Registry, c: Call, tla: AccountId, name: Bytes, buyer: AccountId, newKey: PublicKey,
                      isMother: bool): Result<(Registry, Job)> {
    if r.config.paused then Err(Paused)
    else if c.caller !in r.config.paymentAuthorities then Err(OnlyPaymentAuthority)
    else if !ValidName(name) then Err(InvalidName)
    else if !newKey.Ed25519? then Err(NotEd25519)
    else StartSale(r, c.now, tla, SubAccountKey(tla, name), buyer, newKey, 0, Some(c.caller), isMother)
  }

  /** A sale that does not complete: `abort_sale` and the failing branches of the sold callbacks. */
  function CancelSale(r: Registry, t: Task): Registry
    requires t.Buy?
  {
    r.(board := ClearSettling(r.board, t.key),
       money := if t.operator.None? then AddPendingRefund(r.money, t.buyer, t.deposit) else r.money)
  }

  function SaleMoney(m: Money, bps: nat, seller: AccountId, t: Task): Money
    requires t.Buy?
  {
    var (commission, proceeds) := SplitResale(t.price, bps);
    RefundExcess(AddPendingRefund(AddRevenue(m, commission), seller, proceeds), t.buyer, t.deposit, t.price)
  }

  /** A paid sale moves no money here; its operator becomes the owner of record. */
  function CompleteSale(r: Registry, t: Task): Registry
    requires t.Buy? && t.key in r.subs
  {
    var s := r.subs[t.key];
    var owner := if t.operator.Some? then t.operator.value else t.buyer;
    r.(subs := r.subs[t.key := s.(owner := owner, mainWallet := t.buyer)],
       board := Board(r.board.listings - {t.key}, r.board.offers - {t.key}),
       money := if t.operator.Some? then r.money else SaleMoney(r.money, r.config.fees.commissionBps, s.owner, t))
  }

  /** `on_sub_account_sold` and its paid form: only a swap reported as done completes the sale. */
  function OnSold(r: Registry, t: Task, swapped: CallResult): Registry
    requires t.Buy?
  {
    if swapped == Returned(true) && t.key in r.subs then CompleteSale(r, t) else CancelSale(r, t)
  }

  /** `admin_clear_settling`: the lock goes whether or not a sale is in flight. */
  function AdminClearSettling(r: Registry, c: Call, tla: AccountId, name: Bytes): Result<Registry> {
    if c.caller !in r.config.admins then Err(OnlyAdmin)
    else Ok(r.(board := ClearSettling(r.board, SubAccountKey(tla, name))))
  }

  function AdminClearReclaim(r: Registry, c: Call, tla: AccountId, name: Bytes): Result<Registry> {
    if c.caller !in r.config.admins then Err(OnlyAdmin)
    else Ok(ReleaseReclaim(r, SubAccountKey(tla, name)))
  }

  // ----- reclaim -----

  /** `isMother` stands for references other than the owner's own. The result is the sweep destination. */
  function ResolveReclaimable(r: Registry, now: nat, tla: AccountId, key: Bytes, isMother: bool): Result<AccountId> {
    if !IsAccountId(key) then Err(InvalidSubAccountId)
    else if key !in r.subs then Err(SubAccountNotFound)
    else if r.subs[key].tlaId != tla then Err(SubAccountTlaMismatch)
    else if isMother then Err(SubAccountIsMother)
    else if tla !in r.tlas then Err(TlaNotFound)
    else if EffectiveLifecycle(now, r.subs[key], r.tlas[tla], r.config.fees.retractionNoticeNs, r.config.graceNs) != Reclaimable
    then Err(SubAccountNotReclaimable)
    else Ok(r.subs[key].mainWallet)
  }

  /** `park_wallet`: a wallet whose signer never got installed is installed with the parked key instead. */
  function ParkStage(r: Registry, key: Bytes): Stage {
    if key in r.signerPending then AtManager(r.config.parkedKey) else AtExtension(r.config.parkedKey, None)
  }

  function ReclaimFinalize(r: Registry, c: Call, tla: AccountId, name: Bytes, isMother: bool): Result<(Registry, Job)> {
    var key := SubAccountKey(tla, name);
    if r.config.paused then Err(Paused)
    else if !ValidName(name) then Err(InvalidName)
    else if Settling(r.board, key) then Err(SaleInProgress)
    else if key in r.reclaimPending then Err(ReclaimInProgress)
    else
      match ResolveReclaimable(r, c.now, tla, key, isMother)
      case Err(e) => Err(e)
      case Ok(_) =>
        Ok((r.(reclaimPending := r.reclaimPending + {key}),
            Chain(Reclaim(tla, key), if r.config.allowlist == {} then ParkStage(r, key) else Gate)))
  }

  /** `on_balances_checked`: None when the reclaim is called off. */
  function GateReclaim(r: Registry, now: nat, t: Task, clear: bool, isMother: bool): Option<Stage>
    requires t.Reclaim?
  {
    if Settling(r.board, t.key) || !clear || ResolveReclaimable(r, now, t.tla, t.key, isMother).Err? then None
    else Some(ParkStage(r, t.key))
  }

  function ReleaseReclaim(r: Registry, key: Bytes): Registry {
    r.(reclaimPending := r.reclaimPending - {key})
  }

  /** `on_reclaim_finalized` reads only whether the receipt succeeded, not the bool in it. */
  function OnReclaimed(r: Registry, now: nat, t: Task, result: CallResult): Registry
    requires t.Reclaim?
  {
    if result.Failed? || t.key !in r.subs then ReleaseReclaim(r, t.key)
    else
      var counts := r.counts.(subs := SatSub(r.counts.subs, 1));
      r.(reclaimPending := r.reclaimPending - {t.key},
         subs := r.subs - {t.key},
         board := Board(r.board.listings - {t.key}, r.board.offers - {t.key}),
         signerPending := r.signerPending - {t.key},
         counts := if IsBusiness(r, t.tla) then DropBusiness(counts, t.tla) else counts,
         parked := r.parked[t.key := ParkedEntry(t.tla, now)])
  }

  const SWEEP_DEPOSIT: nat := 1_250_000_000_000_000_000_001

  /** `reclaim_sweep_ft`: the required deposit travels on, the rest is owed back. */
  function SweepFt(r: Registry, c: Call, tla: AccountId, name: Bytes, ft: AccountId, isMother: bool): Result<Registry> {
    var key := SubAccountKey(tla, name);
    if r.config.paused then Err(Paused)
    else if !ValidName(name) then Err(InvalidName)
    else if c.attached < SWEEP_DEPOSIT then Err(InsufficientPayment)
    else if Settling(r.board, key) then Err(SaleInProgress)
    else if ft !in r.config.allowlist then Err(TokenNotInAllowlist)
    else
      match ResolveReclaimable(r, c.now, tla, key, isMother)
      case Err(e) => Err(e)
      case Ok(_) => Ok(r.(money := RefundExcess(r.money, c.caller, c.attached, SWEEP_DEPOSIT)))
  }

  // ----- money out -----

  function ClaimRefund(r: Registry, caller: AccountId, available: nat): Result<(Registry, Job)> {
    var amount := PendingRefund(r.money, caller);
    if amount == 0 then Err(NoPendingRefund)
    else if amount > available then Err(InsufficientContractBalance)
    else
      Ok((r.(money := r.money.(refunds := r.money.refunds - {caller}, total := SatSub(r.money.total, amount))),
          Payout(caller, amount)))
  }

  function OnPayout(r: Registry, j: Job, ok: bool): Registry
    requires j.Payout?
  {
    if ok then r else r.(money := AddPendingRefund(r.money, j.account, j.amount))
  }

  function Withdraw(r: Registry, c: Call, amount: nat, recipient: AccountId, available: nat): Result<Registry> {
    if c.caller !in r.config.admins then Err(OnlyAdmin)
    else if amount == 0 then Err(WithdrawalAmountZero)
    else if amount > r.money.revenue then Err(InsufficientRevenue)
    else if SatAdd(r.money.total, amount, U128_LIMIT) > available then Err(InsufficientContractBalance)
    else Ok(r.(money := AddPendingRefund(r.money.(revenue := SatSub(r.money.revenue, amount)), recipient, amount)))
  }
}
