/** The tla-registry contract: maps and ledger fields updated in place; an error leaves everything as it was. */
module RegistryContract {
  import opened Types
  import opened Fees
  import opened RegistryTypes
  import opened Names
  import Rules = RegistryRules

  /** A call either fails with the specified error and changes nothing, or reaches the specified state. */
  ghost predicate Follows(before: Registry, o: Result<Registry>, after: Registry, error: Option<Error>) {
    match o
    case Err(e) => error == Some(e) && after == before
    case Ok(r) => error == None && after == r
  }

  /** The same for a call that also dispatches a promise chain. */
  ghost predicate Dispatches(before: Registry, o: Result<(Registry, Rules.Job)>, after: Registry, sent: Result<Rules.Job>) {
    match o
    case Err(e) => sent == Err(e) && after == before
    case Ok((r, j)) => sent == Ok(j) && after == r
  }

  class TlaRegistry {
    var config: Config
    var tlas: map<AccountId, TlaEntry>
    var subAccounts: map<Bytes, SubEntry>
    var listings: map<Bytes, Listing>
    var acceptedOffers: map<Bytes, Offer>
    var parkedNames: map<Bytes, ParkedEntry>
    var signerPending: map<Bytes, PublicKey>
    var reclaimPending: set<Bytes>
    var businessSubCount: map<AccountId, nat>
    var subAccountCount: nat
    var totalRevenue: nat
    var pendingRefunds: map<AccountId, nat>
    var totalPendingRefunds: nat

    ghost function Ledger(): Money
      reads this
    {
      Money(totalRevenue, pendingRefunds, totalPendingRefunds)
    }

    ghost function Sales(): Board
      reads this
    {
      Board(listings, acceptedOffers)
    }

    ghost function Tally(): Counts
      reads this
    {
      Counts(businessSubCount, subAccountCount)
    }

    ghost function View(): Registry
      reads this
    {
      Registry(config, tlas, subAccounts, Sales(), parkedNames, signerPending, reclaimPending, Tally(), Ledger())
    }

    constructor (initial: Config)
      ensures View() == Registry(initial, map[], map[], Board(map[], map[]), map[], map[], {}, Counts(map[], 0), Money(0, map[], 0))
    {
      config := initial;
      tlas, subAccounts, listings, acceptedOffers := map[], map[], map[], map[];
      parkedNames, signerPending, reclaimPending := map[], map[], {};
      businessSubCount, subAccountCount := map[], 0;
      totalRevenue, pendingRefunds, totalPendingRefunds := 0, map[], 0;
    }

    // ----- the refund ledger -----

    method AddPendingRefund(account: AccountId, amount: nat)
      modifies this`pendingRefunds, this`totalPendingRefunds
      ensures Ledger() == RegistryTypes.AddPendingRefund(old(Ledger()), account, amount)
    {
      var existing := 0;
      if account in pendingRefunds { existing := pendingRefunds[account]; }
      pendingRefunds := pendingRefunds[account := SatAdd(existing, amount, U128_LIMIT)];
      totalPendingRefunds := SatAdd(totalPendingRefunds, amount, U128_LIMIT);
    }

    method RefundExcess(payer: AccountId, attached: nat, charged: nat)
      modifies this`pendingRefunds, this`totalPendingRefunds
      ensures Ledger() == RegistryTypes.RefundExcess(old(Ledger()), payer, attached, charged)
    {
      var excess := SatSub(attached, charged);
      if excess > 0 { AddPendingRefund(payer, excess); }
    }

    method ClaimRefund(caller: AccountId, available: nat) returns (sent: Result<Rules.Job>)
      modifies this`pendingRefunds, this`totalPendingRefunds
      ensures Dispatches(old(View()), Rules.ClaimRefund(old(View()), caller, available), View(), sent)
    {
      var amount := 0;
      if caller in pendingRefunds { amount := pendingRefunds[caller]; }
      if amount == 0 { return Err(NoPendingRefund); }
      if amount > available { return Err(InsufficientContractBalance); }
      pendingRefunds := pendingRefunds - {caller};
      totalPendingRefunds := SatSub(totalPendingRefunds, amount);
      return Ok(Rules.Payout(caller, amount));
    }

    method OnClaimRefundSettled(caller: AccountId, amount: nat, ok: bool)
      modifies this`pendingRefunds, this`totalPendingRefunds
      ensures View() == Rules.OnPayout(old(View()), Rules.Payout(caller, amount), ok)
    {
      if ok { return; }
      AddPendingRefund(caller, amount);
    }

    method Withdraw(c: Call, amount: nat, recipient: AccountId, available: nat) returns (error: Option<Error>)
      modifies this`totalRevenue, this`pendingRefunds, this`totalPendingRefunds
      ensures Follows(old(View()), Rules.Withdraw(old(View()), c, amount, recipient, available), View(), error)
    {
      if c.caller !in config.admins { return Some(OnlyAdmin); }
      if amount == 0 { return Some(WithdrawalAmountZero); }
      if amount > totalRevenue { return Some(InsufficientRevenue); }
      if SatAdd(totalPendingRefunds, amount, U128_LIMIT) > available { return Some(InsufficientContractBalance); }
      totalRevenue := SatSub(totalRevenue, amount);
      AddPendingRefund(recipient, amount);
      return None;
    }

    // ----- Business TLA counts -----

    method BusinessCountDecrementIfBusiness(tla: AccountId)
      modifies this`businessSubCount
      ensures Tally() == if old(IsBusiness(View(), tla)) then DropBusiness(old(Tally()), tla) else old(Tally())
    {
      if tla !in tlas || tlas[tla].tlaType != Business { return; }
      var count := 0;
      if tla in businessSubCount { count := businessSubCount[tla]; }
      if count == 0 { return; }
      var next := SatSub(count, 1);
      if next == 0 {
        businessSubCount := businessSubCount - {tla};
      } else {
        businessSubCount := businessSubCount[tla := next];
      }
    }

    method BusinessCountCheckAndBump(tla: AccountId) returns (ok: bool)
      modifies this`businessSubCount
      ensures ok <==> old(BusinessCount(Tally(), tla) < BusinessCap(config, tla))
      ensures Tally() == if ok then BumpBusiness(old(Tally()), tla) else old(Tally())
    {
      var cap := BusinessCap(config, tla);
      var count := 0;
      if tla in businessSubCount { count := businessSubCount[tla]; }
      if count >= cap { return false; }
      businessSubCount := businessSubCount[tla := SatAdd(count, 1, U32_LIMIT)];
      return true;
    }

    // ----- TLA leases -----

    method ActivateTla(c: Call, tla: AccountId) returns (error: Option<Error>)
      modifies this`tlas, this`totalRevenue, this`pendingRefunds, this`totalPendingRefunds
      ensures Follows(old(View()), Rules.ActivateTla(old(View()), c, tla), View(), error)
    {
      if config.paused { return Some(Error.Paused); }
      var required := SatAdd(config.fees.tlaAllocationFee, BaseRent(|tla| % 256, config.fees), U128_LIMIT);
      if c.attached < required { return Some(InsufficientPayment); }
      if tla !in tlas { return Some(TlaNotFound); }
      var entry := tlas[tla];
      if entry.status != Registered { return Some(TlaNotInRegisteredState); }
      if entry.tlaType != Business { return Some(WrongActivationEndpoint); }
      if entry.licensee.None? { return Some(BusinessTlaMissingLicensee); }
      if c.caller != entry.licensee.value { return Some(OnlyLicensee); }
      entry := entry.(status := Active);
      entry := entry.(activatedAt := c.now);
      entry := entry.(expiresAt := SatAdd(c.now, ONE_YEAR_NS, U64_LIMIT));
      tlas := tlas[tla := entry];
      totalRevenue := SatAdd(totalRevenue, required, U128_LIMIT);
      RefundExcess(c.caller, c.attached, required);
      return None;
    }

    method RenewTla(c: Call, tla: AccountId) returns (error: Option<Error>)
      modifies this`tlas, this`totalRevenue, this`pendingRefunds, this`totalPendingRefunds
      ensures Follows(old(View()), Rules.RenewTla(old(View()), c, tla), View(), error)
    {
      if config.paused { return Some(Error.Paused); }
      var rent := BaseRent(|tla| % 256, config.fees);
      if tla !in tlas { return Some(TlaNotFound); }
      var entry := tlas[tla];
      if entry.status != Active { return Some(TlaNotActive); }
      if c.now >= SatAdd(entry.expiresAt, config.graceNs, U64_LIMIT) { return Some(TlaPastGracePeriod); }
      if entry.tlaType == Business {
        if entry.licensee.None? { return Some(BusinessTlaMissingLicensee); }
        if c.caller != entry.licensee.value { return Some(OnlyLicensee); }
      } else {
        if c.caller !in config.admins { return Some(OnlyAdmin); }
      }
      if c.attached < rent { return Some(InsufficientPayment); }
      entry := entry.(expiresAt := SatAdd(Max(c.now, entry.expiresAt), ONE_YEAR_NS, U64_LIMIT));
      tlas := tlas[tla := entry];
      totalRevenue := SatAdd(totalRevenue, rent, U128_LIMIT);
      RefundExcess(c.caller, c.attached, rent);
      return None;
    }

    method RenewSubAccount(c: Call, tla: AccountId, name: Bytes) returns (error: Option<Error>)
      modifies this`subAccounts, this`totalRevenue, this`pendingRefunds, this`totalPendingRefunds
      ensures Follows(old(View()), Rules.RenewSub(old(View()), c, tla, name), View(), error)
    {
      if config.paused { return Some(Error.Paused); }
      var key := SubAccountKey(tla, name);
      if key !in subAccounts { return Some(SubAccountNotFound); }
      var sub := subAccounts[key];
      if c.now >= SatAdd(sub.expiresAt, config.graceNs, U64_LIMIT) { return Some(SubAccountPastGracePeriod); }
      if c.caller != sub.owner { return Some(OnlyOwner); }
      if sub.retractionAt.Some? { return Some(RetractionPending); }
      if tla !in tlas { return Some(TlaNotFound); }
      if TlaLifecycle(c.now, tlas[tla], config.graceNs) == Reclaimable { return Some(TlaPastGracePeriod); }
      var rent := CalculateRent(tlas[tla].tlaType, tlas[tla].premium, tla, name, config.fees);
      if c.attached < rent { return Some(InsufficientPayment); }
      sub := sub.(expiresAt := SatAdd(Max(c.now, sub.expiresAt), ONE_YEAR_NS, U64_LIMIT));
      subAccounts := subAccounts[key := sub];
      totalRevenue := SatAdd(totalRevenue, rent, U128_LIMIT);
      RefundExcess(c.caller, c.attached, rent);
      return None;
    }

    // ----- renting -----

    method RentSubAccount(c: Call, tla: AccountId, name: Bytes, ownerKey: PublicKey, mainWallet: AccountId)
      returns (sent: Result<Rules.Job>)
      modifies this`subAccounts, this`businessSubCount
      ensures Dispatches(old(View()), Rules.Rent(old(View()), c, tla, name, ownerKey, mainWallet), View(), sent)
    {
      if config.paused { return Err(Error.Paused); }
      var check := ValidateName(name);
      if check != Accepted { return Err(Error.InvalidName); }
      var key := SubAccountKey(tla, name);
      if key in subAccounts { return Err(SubAccountNameTaken); }
      if mainWallet == key { return Err(MainWalletEqualsSubAccount); }
      var reRent := key in parkedNames;
      if tla !in tlas { return Err(TlaNotFound); }
      var entry := tlas[tla];
      if !AcceptingRentals(c.now, entry) { return Err(TlaNotAcceptingRentals); }
      if entry.tlaType == Business {
        if entry.licensee.None? { return Err(BusinessTlaMissingLicensee); }
        if c.caller != entry.licensee.value { return Err(OnlyLicensee); }
      }
      var rent := CalculateRent(entry.tlaType, entry.premium, tla, name, config.fees);
      var total := rent;
      if !reRent { total := SatAdd(rent, config.fees.creationDeposit, U128_LIMIT); }
      if c.attached < total { return Err(InsufficientPayment); }
      if entry.tlaType == Business {
        if BusinessCount(Counts(businessSubCount, subAccountCount), tla) >= BusinessCap(config, tla) { return Err(MaxBusinessSubsReached); }
      }
      if reRent && !IsAccountId(key) { return Err(InvalidSubAccountId); }
      if entry.tlaType == Business {
        var bumped := BusinessCountCheckAndBump(tla);
      }
      subAccounts := subAccounts[key := SubEntry(c.caller, tla, mainWallet, c.now, SatAdd(c.now, ONE_YEAR_NS, U64_LIMIT), None)];
      if reRent {
        var task := Rules.ReRent(tla, key, c.caller, ownerKey, rent, c.attached);
        if config.allowlist == {} { return Ok(Rules.Chain(task, Rules.AtExtension(ownerKey, None))); }
        return Ok(Rules.Chain(task, Rules.Gate));
      }
      return Ok(Rules.Mint(tla, key, c.caller, ownerKey, rent, c.attached, config.fees.creationDeposit, false, Rules.Deriving));
    }

    method RentSubAccountPaid(c: Call, tla: AccountId, name: Bytes, ownerKey: PublicKey, mainWallet: AccountId)
      returns (sent: Result<Rules.Job>)
      modifies this`subAccounts, this`businessSubCount
      ensures Dispatches(old(View()), Rules.RentPaid(old(View()), c, tla, name, ownerKey, mainWallet), View(), sent)
    {
      if config.paused { return Err(Error.Paused); }
      if c.caller !in config.paymentAuthorities { return Err(OnlyPaymentAuthority); }
      var check := ValidateName(name);
      if check != Accepted { return Err(Error.InvalidName); }
      if !ownerKey.Ed25519? { return Err(NotEd25519); }
      var key := SubAccountKey(tla, name);
      if key in subAccounts || key in parkedNames { return Err(SubAccountNameTaken); }
      if mainWallet == key { return Err(MainWalletEqualsSubAccount); }
      if tla !in tlas { return Err(TlaNotFound); }
      var entry := tlas[tla];
      if !AcceptingRentals(c.now, entry) { return Err(TlaNotAcceptingRentals); }
      if entry.tlaType == Business {
        if entry.licensee.None? { return Err(BusinessTlaMissingLicensee); }
        if mainWallet != entry.licensee.value { return Err(OnlyLicensee); }
      }
      var rent := CalculateRent(entry.tlaType, entry.premium, tla, name, config.fees);
      if c.attached < config.fees.creationDeposit { return Err(InsufficientPayment); }
      if entry.tlaType == Business {
        var bumped := BusinessCountCheckAndBump(tla);
        if !bumped { return Err(MaxBusinessSubsReached); }
      }
      subAccounts := subAccounts[key := SubEntry(c.caller, tla, mainWallet, c.now, SatAdd(c.now, ONE_YEAR_NS, U64_LIMIT), None)];
      return Ok(Rules.Mint(tla, key, c.caller, ownerKey, rent, c.attached, config.fees.creationDeposit, true, Rules.Deriving));
    }

    method SettleFailedMint(key: Bytes, tla: AccountId, payer: AccountId, attached: nat)
      modifies this`subAccounts, this`businessSubCount, this`pendingRefunds, this`totalPendingRefunds
      ensures View() == Rules.FailTenancy(old(View()), key, tla, payer, attached)
    {
      subAccounts := subAccounts - {key};
      BusinessCountDecrementIfBusiness(tla);
      AddPendingRefund(payer, attached);
    }

    /** `on_sub_account_created` and its paid form. */
    method OnSubAccountCreated(j: Rules.Job, outcome: Rules.MintOutcome)
      requires j.Mint?
      modifies this`subAccounts, this`businessSubCount, this`subAccountCount, this`signerPending,
               this`totalRevenue, this`pendingRefunds, this`totalPendingRefunds
      ensures View() == Rules.OnCreated(old(View()), j, outcome)
    {
      if outcome == Rules.Rejected || outcome == Rules.CreationFailed {
        SettleFailedMint(j.key, j.tla, j.payer, j.attached);
        return;
      }
      if j.key !in subAccounts { return; }
      subAccountCount := SatAdd(subAccountCount, 1, U64_LIMIT);
      if j.paid {
        RefundExcess(j.payer, j.attached, config.fees.creationDeposit);
      } else {
        totalRevenue := SatAdd(totalRevenue, j.rent, U128_LIMIT);
        RefundExcess(j.payer, j.attached, SatAdd(j.rent, config.fees.creationDeposit, U128_LIMIT));
      }
      if outcome == Rules.SignerPending {
        signerPending := signerPending[j.key := j.ownerKey];
      }
    }

    method OnSubAccountReRented(t: Rules.Task, result: CallResult)
      requires t.ReRent?
      modifies this`subAccounts, this`businessSubCount, this`subAccountCount, this`parkedNames,
               this`totalRevenue, this`pendingRefunds, this`totalPendingRefunds
      ensures View() == Rules.OnReRented(old(View()), t, result)
    {
      if result.Failed? {
        SettleFailedMint(t.key, t.tla, t.payer, t.attached);
        return;
      }
      parkedNames := parkedNames - {t.key};
      subAccountCount := SatAdd(subAccountCount, 1, U64_LIMIT);
      totalRevenue := SatAdd(totalRevenue, t.rent, U128_LIMIT);
      RefundExcess(t.payer, t.attached, t.rent);
    }

    // ----- the marketplace -----

    method IsSettling(key: Bytes) returns (settling: bool)
      ensures settling <==> Settling(Sales(), key)
    {
      if key in listings && listings[key].settling { return true; }
      if key in acceptedOffers && acceptedOffers[key].settling { return true; }
      return false;
    }

    method ClearSettling(key: Bytes)
      modifies this`listings, this`acceptedOffers
      ensures Sales() == RegistryTypes.ClearSettling(old(Sales()), key)
    {
      if key in listings { listings := listings[key := listings[key].(settling := false)]; }
      if key in acceptedOffers { acceptedOffers := acceptedOffers[key := acceptedOffers[key].(settling := false)]; }
    }

    method AdminClearSettling(c: Call, tla: AccountId, name: Bytes) returns (error: Option<Error>)
      modifies this`listings, this`acceptedOffers
      ensures Follows(old(View()), Rules.AdminClearSettling(old(View()), c, tla, name), View(), error)
    {
      if c.caller !in config.admins { return Some(OnlyAdmin); }
      ClearSettling(SubAccountKey(tla, name));
      return None;
    }

    method AssertSellable(now: nat, tla: AccountId, key: Bytes, isMother: bool) returns (owner: Result<AccountId>)
      ensures owner == Rules.Sellable(View(), now, tla, key, isMother)
    {
      if !IsAccountId(key) { return Err(InvalidSubAccountId); }
      if isMother { return Err(SubAccountIsMother); }
      if key in signerPending { return Err(SubAccountNotSellable); }
      if key !in subAccounts { return Err(SubAccountNotFound); }
      var sub := subAccounts[key];
      if sub.tlaId != tla { return Err(SubAccountTlaMismatch); }
      if sub.retractionAt.Some? { return Err(RetractionPending); }
      if tla !in tlas { return Err(TlaNotFound); }
      if tlas[tla].tlaType == Business { return Err(BusinessSubNotResellable); }
      if tlas[tla].status != Active { return Err(SubAccountNotSellable); }
      if EffectiveLifecycle(now, sub, tlas[tla], config.fees.retractionNoticeNs, config.graceNs) != Live { return Err(SubAccountNotSellable); }
      return Ok(sub.owner);
    }

    method OnVerified(j: Rules.Job, current: Option<PublicKey>)
      requires j.Verify?
      modifies this`listings, this`acceptedOffers
      ensures View() == Rules.OnVerified(old(View()), j, current)
    {
      if current != Some(j.listedKey) || !j.listedKey.Ed25519? { return; }
      if j.listed !in subAccounts || subAccounts[j.listed].owner != j.seller { return; }
      match j.offerTo {
        case None =>
          if j.listed in listings && listings[j.listed].settling { return; }
          listings := listings[j.listed := Listing(j.price, false, j.listedKey)];
        case Some(buyer) =>
          if j.listed in acceptedOffers && acceptedOffers[j.listed].settling { return; }
          acceptedOffers := acceptedOffers[j.listed := Offer(buyer, j.price, false, j.listedKey)];
      }
    }

    /** `resolve_and_lock_sale`; a paid sale passes no deposit. */
    method ResolveAndLockSale(key: Bytes, buyer: AccountId, deposit: Option<nat>) returns (terms: Result<(nat, PublicKey)>)
      modifies this`listings, this`acceptedOffers
      ensures match Rules.LockSale(old(Sales()), key, buyer, deposit)
              case Err(e) => terms == Err(e) && Sales() == old(Sales())
              case Ok((b, price, ownerKey)) => terms == Ok((price, ownerKey)) && Sales() == b
    {
      if key in acceptedOffers && acceptedOffers[key].buyer == buyer {
        var offer := acceptedOffers[key];
        if deposit.Some? && deposit.value < offer.price { return Err(PriceNotMet); }
        acceptedOffers := acceptedOffers[key := offer.(settling := true)];
        return Ok((offer.price, offer.ownerKey));
      }
      if key in listings {
        var listing := listings[key];
        if deposit.Some? && deposit.value < listing.price { return Err(PriceNotMet); }
        listings := listings[key := listing.(settling := true)];
        return Ok((listing.price, listing.ownerKey));
      }
      return Err(NotListed);
    }

    method StartSale(now: nat, tla: AccountId, key: Bytes, buyer: AccountId, newKey: PublicKey, deposit: nat,
                     operator: Option<AccountId>, isMother: bool) returns (sent: Result<Rules.Job>)
      modifies this`listings, this`acceptedOffers
      ensures Dispatches(old(View()), Rules.StartSale(old(View()), now, tla, key, buyer, newKey, deposit, operator, isMother), View(), sent)
    {
      var settling := IsSettling(key);
      if settling { return Err(SaleInProgress); }
      var owner := AssertSellable(now, tla, key, isMother);
      if owner.Err? { return Err(owner.error); }
      var terms := ResolveAndLockSale(key, buyer, if operator.None? then Some(deposit) else None);
      if terms.Err? { return Err(terms.error); }
      var (price, ownerKey) := terms.value;
      var task := Rules.Buy(tla, key, buyer, newKey, price, deposit, ownerKey, operator);
      if config.allowlist == {} { return Ok(Rules.Chain(task, Rules.AtExtension(newKey, Some(ownerKey)))); }
      return Ok(Rules.Chain(task, Rules.Gate));
    }

    method BuySubAccount(c: Call, tla: AccountId, name: Bytes, newKey: PublicKey, isMother: bool) returns (sent: Result<Rules.Job>)
      modifies this`listings, this`acceptedOffers
      ensures Dispatches(old(View()), Rules.BuySub(old(View()), c, tla, name, newKey, isMother), View(), sent)
    {
      if config.paused { return Err(Error.Paused); }
      var check := ValidateName(name);
      if check != Accepted { return Err(Error.InvalidName); }
      if !newKey.Ed25519? { return Err(NotEd25519); }
      sent := StartSale(c.now, tla, SubAccountKey(tla, name), c.caller, newKey, c.attached, None, isMother);
    }

    method BuySubAccountPaid(c: Call, tla: AccountId, name: Bytes, buyer: AccountId, newKey: PublicKey, isMother: bool)
      returns (sent: Result<Rules.Job>)
      modifies this`listings, this`acceptedOffers
      ensures Dispatches(old(View()), Rules.BuySubPaid(old(View()), c, tla, name, buyer, newKey, isMother), View(), sent)
    {
      if config.paused { return Err(Error.Paused); }
      if c.caller !in config.paymentAuthorities { return Err(OnlyPaymentAuthority); }
      var check := ValidateName(name);
      if check != Accepted { return Err(Error.InvalidName); }
      if !newKey.Ed25519? { return Err(NotEd25519); }
      sent := StartSale(c.now, tla, SubAccountKey(tla, name), buyer, newKey, 0, Some(c.caller), isMother);
    }

    /** `abort_sale` and the failing branches of the sold callbacks. */
    method CancelSale(t: Rules.Task)
      requires t.Buy?
      modifies this`listings, this`acceptedOffers, this`pendingRefunds, this`totalPendingRefunds
      ensures View() == Rules.CancelSale(old(View()), t)
    {
      if t.operator.None? { AddPendingRefund(t.buyer, t.deposit); }
      ClearSettling(t.key);
    }

    /** The entry changes hands and nothing of it is on sale any more. */
    method HandOver(key: Bytes, owner: AccountId, wallet: AccountId)
      requires key in subAccounts
      modifies this`subAccounts, this`listings, this`acceptedOffers
      ensures subAccounts == old(subAccounts)[key := old(subAccounts)[key].(owner := owner, mainWallet := wallet)]
      ensures Sales() == Board(old(listings) - {key}, old(acceptedOffers) - {key})
    {
      subAccounts := subAccounts[key := subAccounts[key].(owner := owner, mainWallet := wallet)];
      listings := listings - {key};
      acceptedOffers := acceptedOffers - {key};
    }

    method PaySale(t: Rules.Task, seller: AccountId)
      requires t.Buy?
      modifies this`totalRevenue, this`pendingRefunds, this`totalPendingRefunds
      ensures Ledger() == Rules.SaleMoney(old(Ledger()), config.fees.commissionBps, seller, t)
    {
      var (commission, proceeds) := SplitResale(t.price, config.fees.commissionBps);
      totalRevenue := SatAdd(totalRevenue, commission, U128_LIMIT);
      AddPendingRefund(seller, proceeds);
      RefundExcess(t.buyer, t.deposit, t.price);
    }

    method OnSubAccountSold(t: Rules.Task, swapped: CallResult)
      requires t.Buy? && t.operator.None?
      modifies this`subAccounts, this`listings, this`acceptedOffers, this`totalRevenue, this`pendingRefunds, this`totalPendingRefunds
      ensures View() == Rules.OnSold(old(View()), t, swapped)
    {
      if swapped != Returned(true) || t.key !in subAccounts {
        CancelSale(t);
        return;
      }
      PaySale(t, subAccounts[t.key].owner);
      HandOver(t.key, t.buyer, t.buyer);
    }

    method OnSubAccountSoldPaid(t: Rules.Task, swapped: CallResult)
      requires t.Buy? && t.operator.Some?
      modifies this`subAccounts, this`listings, this`acceptedOffers, this`pendingRefunds, this`totalPendingRefunds
      ensures View() == Rules.OnSold(old(View()), t, swapped)
    {
      if swapped != Returned(true) || t.key !in subAccounts {
        CancelSale(t);
        return;
      }
      HandOver(t.key, t.operator.value, t.buyer);
    }

    // ----- reclaim -----

    method ResolveReclaimable(now: nat, tla: AccountId, key: Bytes, isMother: bool) returns (destination: Result<AccountId>)
      ensures destination == Rules.ResolveReclaimable(View(), now, tla, key, isMother)
    {
      if !IsAccountId(key) { return Err(InvalidSubAccountId); }
      if key !in subAccounts { return Err(SubAccountNotFound); }
      var sub := subAccounts[key];
      if sub.tlaId != tla { return Err(SubAccountTlaMismatch); }
      if isMother { return Err(SubAccountIsMother); }
      if tla !in tlas { return Err(TlaNotFound); }
      if EffectiveLifecycle(now, sub, tlas[tla], config.fees.retractionNoticeNs, config.graceNs) != Reclaimable {
        return Err(SubAccountNotReclaimable);
      }
      return Ok(sub.mainWallet);
    }

    method ParkWallet(key: Bytes) returns (stage: Rules.Stage)
      ensures stage == Rules.ParkStage(View(), key)
    {
      if key in signerPending { return Rules.AtManager(config.parkedKey); }
      return Rules.AtExtension(config.parkedKey, None);
    }

    method ReclaimFinalize(c: Call, tla: AccountId, name: Bytes, isMother: bool) returns (sent: Result<Rules.Job>)
      modifies this`reclaimPending
      ensures Dispatches(old(View()), Rules.ReclaimFinalize(old(View()), c, tla, name, isMother), View(), sent)
    {
      if config.paused { return Err(Error.Paused); }
      var check := ValidateName(name);
      if check != Accepted { return Err(Error.InvalidName); }
      var key := SubAccountKey(tla, name);
      var settling := IsSettling(key);
      if settling { return Err(SaleInProgress); }
      if key in reclaimPending { return Err(ReclaimInProgress); }
      var destination := ResolveReclaimable(c.now, tla, key, isMother);
      if destination.Err? { return Err(destination.error); }
      reclaimPending := reclaimPending + {key};
      var stage := Rules.Gate;
      if config.allowlist == {} { stage := ParkWallet(key); }
      return Ok(Rules.Chain(Rules.Reclaim(tla, key), stage));
    }

    /** Calls the reclaim off, and releases its lock, unless the name is still idle, empty and reclaimable. */
    method OnBalancesChecked(now: nat, t: Rules.Task, clear: bool, isMother: bool) returns (next: Option<Rules.Stage>)
      requires t.Reclaim?
      modifies this`reclaimPending
      ensures next == Rules.GateReclaim(old(View()), now, t, clear, isMother)
      ensures View() == if next.None? then Rules.ReleaseReclaim(old(View()), t.key) else old(View())
    {
      var settling := IsSettling(t.key);
      if settling || !clear {
        reclaimPending := reclaimPending - {t.key};
        return None;
      }
      var destination := ResolveReclaimable(now, t.tla, t.key, isMother);
      if destination.Err? {
        reclaimPending := reclaimPending - {t.key};
        return None;
      }
      var stage := ParkWallet(t.key);
      return Some(stage);
    }

    /** The entry goes, with everything on sale and every mark under its name; the name stays parked. */
    method ParkName(now: nat, tla: AccountId, key: Bytes)
      modifies this`subAccounts, this`listings, this`acceptedOffers, this`signerPending, this`parkedNames
      ensures subAccounts == old(subAccounts) - {key} && signerPending == old(signerPending) - {key}
      ensures listings == old(listings) - {key} && acceptedOffers == old(acceptedOffers) - {key}
      ensures parkedNames == old(parkedNames)[key := ParkedEntry(tla, now)]
    {
      subAccounts := subAccounts - {key};
      listings := listings - {key};
      acceptedOffers := acceptedOffers - {key};
      signerPending := signerPending - {key};
      parkedNames := parkedNames[key := ParkedEntry(tla, now)];
    }

    method OnReclaimFinalized(now: nat, t: Rules.Task, result: CallResult)
      requires t.Reclaim?
      modifies this`reclaimPending, this`subAccounts, this`listings, this`acceptedOffers, this`signerPending, this`parkedNames,
               this`subAccountCount, this`businessSubCount
      ensures View() == Rules.OnReclaimed(old(View()), now, t, result)
    {
      reclaimPending := reclaimPending - {t.key};
      if result.Failed? || t.key !in subAccounts { return; }
      subAccountCount := SatSub(subAccountCount, 1);
      BusinessCountDecrementIfBusiness(t.tla);
      ParkName(now, t.tla, t.key);
    }
  }
}
