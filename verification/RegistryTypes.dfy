/** The registry's records, its lifecycle clock and its refund ledger. */
module RegistryTypes {
  import opened Types
  import opened Fees

  const ONE_YEAR_NS: nat := 31_536_000_000_000_000

  datatype Error =
    | Paused | OnlyAdmin | OnlyPaymentAuthority | OnlyOwner | OnlyLicensee | RequiresOneYocto
    | InvalidName | InvalidSubAccountId | InvalidPrice | NotEd25519
    | SubAccountNameTaken | SubAccountNotFound | SubAccountTlaMismatch | MainWalletEqualsSubAccount
    | SubAccountIsMother | SubAccountNotSellable | SubAccountNotReclaimable | SubAccountPastGracePeriod
    | TlaNotFound | TlaAlreadyRegistered | TlaNotInRegisteredState | TlaNotActive | TlaNotSuspended
    | TlaNotAcceptingRentals | TlaPastGracePeriod | WrongActivationEndpoint
    | BusinessTlaRequiresLicensee | BusinessTlaMissingLicensee | NotBusinessTla | MaxBusinessSubsReached
    | BusinessSubNotResellable | RetractionPending | RetractionAlreadyScheduled | NoRetractionScheduled
    | RetractionAlreadyElapsed
    | SaleInProgress | NotListed | NoAcceptedOffer | PriceNotMet | ReclaimInProgress | TokenNotInAllowlist
    | SignerNotPending
    | InsufficientPayment | NoPendingRefund | InsufficientContractBalance | InsufficientRevenue | WithdrawalAmountZero
    | AllRentTiersZero | CreationDepositZero | InvalidCommissionRate

  datatype Result<+T> = Ok(value: T) | Err(error: Error)

  datatype TlaStatus = Registered | Active | Suspended

  datatype TlaEntry = TlaEntry(tlaType: TlaType, status: TlaStatus, licensee: Option<AccountId>, premium: Premium,
                               activatedAt: nat, expiresAt: nat)

  datatype SubEntry = SubEntry(owner: AccountId, tlaId: AccountId, mainWallet: AccountId, rentedAt: nat,
                               expiresAt: nat, retractionAt: Option<nat>)

  datatype Listing = Listing(price: nat, settling: bool, ownerKey: PublicKey)

  datatype Offer = Offer(buyer: AccountId, price: nat, settling: bool, ownerKey: PublicKey)

  datatype ParkedEntry = ParkedEntry(tlaId: AccountId, parkedAt: nat)

  /** What admins set; `graceNs` is fixed at creation. */
  datatype Config = Config(
    paused: bool,
    admins: set<AccountId>,
    paymentAuthorities: set<AccountId>,
    allowlist: set<AccountId>,
    parkedKey: PublicKey,
    graceNs: nat,
    fees: FeeConfig,
    businessCap: map<AccountId, nat>)

  /** What is for sale. */
  datatype Board = Board(listings: map<Bytes, Listing>, offers: map<Bytes, Offer>)

  datatype Counts = Counts(business: map<AccountId, nat>, subs: nat)

  datatype Money = Money(revenue: nat, refunds: map<AccountId, nat>, total: nat)

  /** Sub-accounts, sales and locks are keyed by the full name `name.tla`. */
  datatype Registry = Registry(
    config: Config,
    tlas: map<AccountId, TlaEntry>,
    subs: map<Bytes, SubEntry>,
    board: Board,
    parked: map<Bytes, ParkedEntry>,
    signerPending: map<Bytes, PublicKey>,
    reclaimPending: set<Bytes>,
    counts: Counts,
    money: Money)

  /** Who calls, with what deposit, at what block time. */
  datatype Call = Call(caller: AccountId, attached: nat, now: nat)

  // ----- lifecycle -----

  datatype Lifecycle = NotStarted | Live | Grace | Reclaimable | OnHold

  function TimeLifecycle(now: nat, expiresAt: nat, graceNs: nat): Lifecycle {
    if now < expiresAt then Live
    else if now < SatAdd(expiresAt, graceNs, U64_LIMIT) then Grace
    else Reclaimable
  }

  function TlaLifecycle(now: nat, t: TlaEntry, graceNs: nat): Lifecycle {
    match t.status
    case Registered => NotStarted
    case Suspended => OnHold
    case Active => TimeLifecycle(now, t.expiresAt, graceNs)
  }

  predicate AcceptingRentals(now: nat, t: TlaEntry) {
    t.status == Active && now < t.expiresAt
  }

  function EffectiveLifecycle(now: nat, s: SubEntry, t: TlaEntry, noticeNs: nat, graceNs: nat): Lifecycle {
    if TlaLifecycle(now, t, graceNs) == Reclaimable then Reclaimable
    else if s.retractionAt.Some? && now >= SatAdd(s.retractionAt.value, noticeNs, U64_LIMIT) then Reclaimable
    else TimeLifecycle(now, s.expiresAt, graceNs)
  }

  // ----- refund ledger -----

  function PendingRefund(m: Money, a: AccountId): nat {
    if a in m.refunds then m.refunds[a] else 0
  }

  function AddPendingRefund(m: Money, a: AccountId, amount: nat): Money {
    m.(refunds := m.refunds[a := SatAdd(PendingRefund(m, a), amount, U128_LIMIT)],
       total := SatAdd(m.total, amount, U128_LIMIT))
  }

  function RefundExcess(m: Money, payer: AccountId, attached: nat, charged: nat): Money {
    if SatSub(attached, charged) > 0 then AddPendingRefund(m, payer, SatSub(attached, charged)) else m
  }

  function AddRevenue(m: Money, amount: nat): Money {
    m.(revenue := SatAdd(m.revenue, amount, U128_LIMIT))
  }

  /** The payment pattern of every paid call: keep the charge, owe back the rest. */
  function Charge(m: Money, payer: AccountId, attached: nat, charged: nat): Money {
    RefundExcess(AddRevenue(m, charged), payer, attached, charged)
  }

  // ----- Business TLA counts -----

  function BusinessCount(c: Counts, tla: AccountId): nat {
    if tla in c.business then c.business[tla] else 0
  }

  function BusinessCap(c: Config, tla: AccountId): nat {
    if tla in c.businessCap then c.businessCap[tla] else c.fees.businessMaxSubs
  }

  predicate IsBusiness(r: Registry, tla: AccountId) {
    tla in r.tlas && r.tlas[tla].tlaType == Business
  }

  function BumpBusiness(c: Counts, tla: AccountId): Counts {
    c.(business := c.business[tla := SatAdd(BusinessCount(c, tla), 1, U32_LIMIT)])
  }

  /** `business_count_decrement`: a count that reaches zero leaves the map. */
  function DropBusiness(c: Counts, tla: AccountId): Counts {
    if BusinessCount(c, tla) == 0 then c
    else if BusinessCount(c, tla) == 1 then c.(business := c.business - {tla})
    else c.(business := c.business[tla := BusinessCount(c, tla) - 1])
  }

  // ----- sale locks -----

  /** A sale of `key` holds the lock. */
  predicate Settling(b: Board, key: Bytes) {
    (key in b.listings && b.listings[key].settling) || (key in b.offers && b.offers[key].settling)
  }

  function ClearSettling(b: Board, key: Bytes): Board {
    Board(if key in b.listings then b.listings[key := b.listings[key].(settling := false)] else b.listings,
          if key in b.offers then b.offers[key := b.offers[key].(settling := false)] else b.offers)
  }
}
