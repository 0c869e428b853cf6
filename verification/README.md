# House of Stake TLA contracts: verified model

A Dafny model of the contracts that rent out named NEAR sub-accounts, hold their operating keys,
sell and reclaim them, and recover them, with proofs about every run of the system.

The wallets of rented names are signed for by `active-signer`. Two authorities may change a wallet's
operating key: `hos-extension`, on behalf of `tla-registry` (sales, re-rents, reclaims), and
`mpc-recovery`. All of them talk by asynchronous receipts, so any call may run between two steps of a
chain. The project has four parts.

**A. Custody** (`SignerRules`, `SignerContract`, `RecoveryRules`, `RecoveryContract`, `Custody`,
`CustodyInvariant`, `SignerHistory`, `RecoveryHistory`, `RecoveryTheorems`, `RecoveryProgress`).
`mpc-recovery`, `active-signer` and `hos-extension` as one message-passing system, with the registry
as its environment. `Custody.Apply` is one step, `Custody.Run` any interleaving. The classes
`ActiveSigner` and `MpcRecovery` update their tables in place and are proved equal to the rules the
system is built from.

**B. Market** (`Fees`, `RegistryTypes`, `RegistryRules`, `RegistryContract`, `Market`, `MarketLocks`,
`MarketLeases`, `MarketCounts`, `MarketSolvency`, `MarketLedger`, `MarketSales`, `MarketTransfers`, `Sums`, and
the runs in `MarketExamples`, `DepositExample`, `ParkingExample`, `NestingExample`). The registry with its
mints, transfers, reclaims, listing checks and payouts in flight and its token balance; recovery is
the environment (between any two steps the signer table may become any other). The class
`TlaRegistry` updates maps and ledger fields in place and is proved equal to the same rules.

Every method of the three classes is proved equal to its rule: same error or panic, or same new state
and receipt, and nothing changed on an error. The table below lists only those whose bodies do more than the rule's
branches: loops, and writes in an order that matters.

**C. Signed bytes** (`Borsh`, `Transactions`, `Nep413`, `RecoveryMessages`, `Hex`): the encoders as
methods that append to a buffer, readers for what they write, round trips, and disjointness.

**D. Quorum and names** (`Quorum`, `Names`).

## Assumptions

- A receipt is atomic. One that fails changes nothing and its deposit comes back. Any receipt may
  fail whatever its target would have done. A callback runs once, after its receipt, and completes.
- Block time does not decrease. Field widths are those of the source types.
- Wiring is that of DEPLOY.md:67-96 (`Custody.Setup.Wired`): the extension is the marketplace
  authority and the transfer authority, recovery is another account, and the MPC signer is not the
  active signer. A wallet policy may name some other contract; such a contract answers arbitrarily,
  and the theorems about freezes and swaps are about policies that name this active signer.
- Signature verification is an arbitrary predicate on message, signature and key.
- Assumptions about runs are predicates, named in each theorem: `MarketSolvency.FundedRun` (no balance
  reaches 2^128 - 1, and the creation deposit is not lowered while a mint is in flight),
  `MarketLedger.FittingRun` (revenue and total refunds stay below 2^128 - 1),
  `MarketCounts.SparingRun` (no reclaim completes on a name whose mint is pending, and fewer than 2^64
  entries), `MarketLocks.CalmRun` (no forced unlocking by an administrator; mints settle before their
  lease is reclaimable; no Open TLA is a sub-account of a Business TLA). `MarketLeases.ExpiredIsForever`,
  `MarketSales.RunKeeps`, `MarketSales.OneMovePerSale` and `MarketTransfers.GuardDecides` assume nothing about the run.

## Where the code and its documents differ

- THREAT_MODEL.md:180-182 says that a sale and a reclaim exclude each other through the `settling` lock. A buy never reads
  `reclaim_pending`, so the lock alone does not exclude them. They do exclude each other while no Open TLA is
  named under a Business TLA, because what can be reclaimed then can never again be sold
  (`MarketLocks.SaleAndReclaimExclude`, `MarketLeases.ExpiredIsForever`).
- With an Open TLA named under a Business TLA they do not. `schedule_retraction` checks the type of the TLA it is
  given, not of the entry's own, and does not check the name, so an Open name can be put in retraction through the
  outer TLA; once a reclaim has started, a longer notice period lets the owner cancel the retraction and a buyer buy.
  `NestingExample.NestingBreaksExclusion` is this run, for every such pair of names.
- The creation deposit charged for a mint is read again in its callback. If it was lowered meanwhile
  the registry ends up owing more than it holds: `DepositExample.LoweringTheDepositBreaksSolvency` is such a run
  and `MarketSolvency.MintSettlement` gives the exact condition.
- Sale callbacks read the bool in the extension's answer; reclaim and re-rent callbacks only whether the
  receipt succeeded, and the extension turns a failed swap into a successful receipt. So a frozen wallet's name is
  parked without the parked key, and re-rented and paid for without the new renter's key
  (`ParkingExample.ParkedWithoutTheParkedKey`, `ParkingExample.ReRentedWithoutTheKey`). `MarketTransfers.GuardDecides` with
  `ReRentSettles` and `ReclaimSettles` says exactly when: the key moves if and only if the signer's receipt runs and the
  wallet is in the table and unfrozen, and the registry books it either way.
- Renewal, main-wallet and retraction calls do not check the name. `Names.DottedNamesCollide` shows which (TLA,
  name) pairs share a key; `Names.NestedOrEqual` shows that there are no others.

## Model

| member | source | states |
|---|---|---|
| `CustodyInvariant.StepKeeps` | contracts/mpc-recovery/src/lib.rs:82-423 | every step of the composed system keeps: one outstanding receipt per waiting account and it is the one its phase expects, approved or held wallets are frozen with the bound key, no freeze without its recovery, no voided recovery swap |
| `CustodyInvariant.ReachableKeeps` | contracts/mpc-recovery/src/lib.rs:82-423 | so in every reachable state |
| `RecoveryTheorems.ApprovedWalletIsLocked` | contracts/mpc-recovery/src/lib.rs:222-268 | an approved wallet recovery finds the wallet frozen and its key equal to the policy's bound owner |
| `RecoveryTheorems.RecoverySwapAlwaysMatches` | contracts/mpc-recovery/src/lib.rs:270-311 | a recovery swap in flight, whenever it runs, is neither rejected nor voided by the active signer |
| `RecoveryTheorems.RecoveryIsNeverVoided` | contracts/mpc-recovery/src/lib.rs:374-388 | the callback's voided branch is never reached |
| `RecoveryTheorems.NoOrphanedFreeze` | contracts/active-signer/src/lib.rs:432-468 | a wallet frozen by recovery always has its policy, in phase Approving, Approved or Resolving |
| `RecoveryTheorems.OneOutstandingCall` | contracts/mpc-recovery/src/lib.rs:244-268 | an account has a receipt in flight exactly when its phase waits for one, at most one, carrying the phase's round |
| `RecoveryTheorems.SwapProvenance` | contracts/mpc-recovery/src/lib.rs:133-311 | every recovery key change follows an attested request and then a quorum verdict for exactly that account, key and round, at least the timelock (at least 60 s) apart |
| `RecoveryTheorems.NativeSignatureProvenance` | contracts/mpc-recovery/src/lib.rs:505-532 | the same for what a native recovery has signed, and the signed bytes are a transaction that adds exactly the attested key to the account |
| `RecoveryTheorems.OneSwapPerRound` | contracts/mpc-recovery/src/lib.rs:357-390 | no round changes a wallet's key twice, however often finalizing is retried |
| `RecoveryTheorems.RoundsAreConsecutive` | contracts/mpc-recovery/src/lib.rs:111-129 | the n-th accepted request of an account carries round n-1, across reinstalls and transfer resets |
| `RecoveryTheorems.RequestsAreNeverReplayed` | contracts/mpc-recovery/src/lib.rs:146-168 | no two accepted requests, of any accounts, have the same attested bytes |
| `RecoveryTheorems.VerdictsAreNeverReplayed` | contracts/mpc-recovery/src/lib.rs:177-242 | no two accepted verdicts have the same signed bytes |
| `RecoveryProgress.RecoveryCompletes` | contracts/mpc-recovery/src/lib.rs:133-390 | from any state in which the policy is idle and the wallet still has the bound key, self-frozen or not, attestation, wait and quorum carry the recovery to a key change in eight steps; the wallet ends unfrozen and the policy bound to the new key |
| `RecoveryHistory.RunHistory` | contracts/mpc-recovery/src/lib.rs:82-547 | every run's history justifies every open phase, counts every round and spends every verdict and swap once |
| `SignerHistory.ReachableFits` | contracts/active-signer/src/lib.rs:200-468 | the key and freeze of every wallet are what the history of swaps, freezes and installs says, and no event happened that this state forbade |
| `SignerHistory.RecoveryExcludesSaleAndSigning` | contracts/active-signer/src/lib.rs:380-393 | between a recovery freeze and the swap or unfreeze that ends it there is no sale and no signature |
| `SignerHistory.StalePolicyIsHarmless` | contracts/active-signer/src/lib.rs:441-449 | after a sale moved the key away, a policy bound to the old key neither freezes nor swaps until the key is back |
| `SignerHistory.SelfFreezeHoldsUntilRecoverySwap` | contracts/active-signer/src/lib.rs:411-468 | from a self-freeze to the next recovery swap: same key, no signature, no sale, no unfreeze |
| `SignerHistory.NeverSignsAddKey` | contracts/active-signer/src/lib.rs:233-345 | nothing the active signer has signed, in any run, is a key-adding transaction of any account |
| `SignerHistory.MpcKeyIsForever` | contracts/active-signer/src/lib.rs:200-230 | an installed wallet's MPC key never changes, from any state over any run |
| `SignerContract.ActiveSigner.SwapOwner` | contracts/active-signer/src/lib.rs:364-409 | rejected, voided (false, nothing changed) or swapped, in the order of the source's checks; key, nonces and freeze change together |
| `RecoveryContract.MpcRecovery.SubmitVerdict` | contracts/mpc-recovery/src/lib.rs:177-242 | the verdict message is built by the appending loop and the quorum counted by the counting loop; then state and receipt are those of the rule, or nothing changes |
| `RecoveryContract.MpcRecovery.FinalizeRecovery` | contracts/mpc-recovery/src/lib.rs:270-311 | the AddKey bytes are appended field by field, or the swap dispatched; state and receipt are those of the rule, or nothing changes |
| `MarketLocks.StepKeeps` | contracts/tla-registry/src/marketplace.rs:534-694 | every step keeps: `settling` and `reclaim_pending` each mark exactly one job in flight, a reclaimed name is past selling, a pending mint has its entry, sales, reclaims and mints of one name stay apart |
| `MarketLocks.SaleAndReclaimExclude` | contracts/tla-registry/src/reclaim.rs:57-174 | in every calm run no name is sold and reclaimed at once; each lock is set exactly while its one chain is in flight |
| `NestingExample.NestingBreaksExclusion` | contracts/tla-registry/src/business.rs:13-47 | for every Open TLA named under a Business TLA there is a run from a new registry, with timely mints and no forced lock, that ends with a sale and a reclaim of one name in flight; so the condition of the theorem above cannot be dropped for any such pair |
| `MarketLocks.DoomedIsNotSellable` | contracts/tla-registry/src/marketplace.rs:548-593 | a Business name, or one past its own or its TLA's grace, is not sellable whatever the TLA's status and the fee settings |
| `MarketLeases.ExpiredIsForever` | contracts/tla-registry/src/mother.rs:141-157 | once the lease or its TLA's is past grace, no sequence of steps makes the name sellable while its entry remains |
| `MarketLeases.StepEvolves` | contracts/tla-registry/src/rental.rs:283-433 | no step moves an expiry that is past its grace, revives an unactivated TLA or moves an entry to another TLA |
| `MarketLeases.RunStaysRooted` | contracts/tla-registry/src/rental.rs:86-279 | every entry hangs under an activated TLA, over any run |
| `MarketSales.SaleIsAtomic` | contracts/tla-registry/src/marketplace.rs:351-400 | a sale begun with no mint pending ends with buyer as owner and seller, commission and excess paid to the yocto if the key moved from the listed key to the buyer's, and otherwise with exactly the whole deposit owed to the buyer |
| `MarketSales.SaleSettles` | contracts/tla-registry/src/marketplace.rs:351-483 | for every sale, paid ones too, in any run whose ledger stays below the 128-bit ceiling: booked if and only if the key moved and the entry is still there |
| `MarketSales.RunKeeps` | contracts/hos-extension/src/lib.rs:176-224 | in any run, what any chain in flight (sale, re-rent, reclaim, retried installation) reports about the key is what happened to the key, and no chain acts twice |
| `MarketSales.OneMovePerSale` | contracts/active-signer/src/lib.rs:376-409 | at most one recorded key change bears a sale's id, now and after any further run, and it is from the listed key to the buyer's on the listed wallet |
| `MarketSales.OneMovePerChain` | contracts/active-signer/src/lib.rs:376-409 | no two recorded key changes bear the same id, whether their chains are in flight or long settled |
| `MarketTransfers.SignerDecides` | contracts/tla-registry/src/reclaim.rs:222-243 | a re-rent or reclaim at the signer changes the key to the asked-for one exactly when the receipt runs and the wallet is in the table and unfrozen; otherwise the table is untouched |
| `MarketTransfers.GuardDecides` | contracts/hos-extension/src/lib.rs:176-224 | whatever runs until the answer, the registry will see a success carrying that guard's value at the signer step, never a failure |
| `MarketTransfers.ReRentSettles` | contracts/tla-registry/src/callbacks.rs:120-154 | the renter's key is on the wallet if and only if the answer was true; he is booked and charged if and only if the answer was not a failure |
| `MarketTransfers.ReclaimSettles` | contracts/tla-registry/src/reclaim.rs:129-174 | the wallet got the asked-for key if and only if the answer was true; the name is parked if and only if the answer was not a failure and the entry is there |
| `ParkingExample.ParkedWithoutTheParkedKey` | contracts/tla-registry/src/reclaim.rs:129-174 | a run from a new registry, with one self-freeze, that parks a name whose wallet keeps the tenant's key |
| `ParkingExample.ReRentedWithoutTheKey` | contracts/tla-registry/src/callbacks.rs:120-154 | its continuation: a newcomer becomes owner of record and pays the rent, and the wallet still has the former tenant's key |
| `MarketSolvency.StepConserves` | contracts/tla-registry/src/lib.rs:166-252 | every step moves balance minus revenue, refunds and held deposits by exactly its gain (gifts, one-yocto deposits, what a settled mint paid over its funding), so no ledger addition saturates and no token is owed twice |
| `MarketSolvency.RunSolvent` | contracts/tla-registry/src/admin.rs:202-223 | the balance always covers revenue, refunds and the deposits of mints and sales in flight; total refunds is the sum of the refund map |
| `MarketLedger.RunBalances` | contracts/tla-registry/src/lib.rs:240-252 | in any run whose ledger stays below the ceiling, lowered deposits and forced locks included, total refunds is the sum of the refund map |
| `MarketSolvency.MintSettlement` | contracts/tla-registry/src/callbacks.rs:158-188 | settling a created mint costs the registry tokens exactly when the deposit now configured is below the funding it sent |
| `MarketSolvency.MintMoves` | contracts/tla-manager/src/lib.rs:55-164 | every step inside tla-manager keeps the surplus: the funding comes back exactly with the outcomes that created no wallet |
| `MarketSolvency.SaleMoneyEffect` | contracts/tla-registry/src/marketplace.rs:379-383 | a sale adds the commission to revenue, the proceeds to the seller and the excess to the buyer, also when they are the same account, and nothing to anyone else |
| `DepositExample.LoweringTheDepositBreaksSolvency` | contracts/tla-registry/src/callbacks.rs:167-170 | a run from a new registry in which the deposit is cut from 10 to 1 during a mint ends with 9 owed and 0 held |
| `MarketCounts.StepCounts` | contracts/tla-registry/src/business.rs:161-197 | every step that spares pending mints keeps both counts true, through saturating and map-removing updates |
| `MarketCounts.CountsAreTrue` | contracts/tla-registry/src/callbacks.rs:120-207 | a Business TLA's stored count is the number of its entries; the sub-account count plus pending mints is the number of all entries |
| `MarketCounts.CalmRunsSpareMints` | contracts/tla-registry/src/reclaim.rs:129-174 | runs whose mints settle in time never complete a reclaim on a pending mint |
| `Fees.SplitResale` | contracts/tla-registry/src/fees.rs:20-23 | commission and proceeds add up to the price |
| `Fees.CommissionRate` | contracts/tla-registry/src/fees.rs:20-23 | while the product fits 128 bits, the commission is the rate's share rounded down, and the whole price from 100% on |
| `Fees.SaturatedCommission` | contracts/tla-registry/src/fees.rs:20-23 | where the product saturates, the commission is the ceiling's share instead, capped by the price and below the rate's share up to 100% |
| `RegistryContract.TlaRegistry.BusinessCountDecrementIfBusiness` | contracts/tla-registry/src/business.rs:175-197 | lowers a Business TLA's count, dropping it from the map at zero, and no other TLA's |
| `RegistryContract.TlaRegistry.RentSubAccount` | contracts/tla-registry/src/rental.rs:86-195 | every check comes before the first write, in the source's order of errors, so an error leaves nothing behind; otherwise entry, count and chain are those of the rule |
| `RegistryContract.TlaRegistry.OnSubAccountCreated` | contracts/tla-registry/src/callbacks.rs:13-117 | the writes of both callback forms, one after another, reach the state the conservation and counting proofs are about; a missing entry undoes them |
| `RegistryContract.TlaRegistry.ClearSettling` | contracts/tla-registry/src/marketplace.rs:669-676 | both locks of the name are open, prices and offers stay |
| `RegistryContract.TlaRegistry.ResolveAndLockSale` | contracts/tla-registry/src/marketplace.rs:602-667 | locks the buyer's offer before the listing and returns its terms |
| `RegistryContract.TlaRegistry.OnSubAccountSold` | contracts/tla-registry/src/marketplace.rs:351-400 | paying seller, commission and buyer one after another and handing the entry over reaches the state sale atomicity is proved about, also when seller and buyer are one account |
| `RegistryContract.TlaRegistry.OnBalancesChecked` | contracts/tla-registry/src/reclaim.rs:84-126 | the reclaim goes on exactly when the name is idle, the gate clear and the lease reclaimable, and otherwise its lock is released |
| `RegistryContract.TlaRegistry.OnReclaimFinalized` | contracts/tla-registry/src/reclaim.rs:129-174 | clearing the lock, both sale maps, the signer mark and the counts one after another and parking the name reaches the state the lock and counting proofs are about |
| `Transactions.WriteHeader` | crates/hos-common/src/tx.rs:77-92 | the appended fields are the header layout the reader takes apart |
| `Transactions.BuildTransaction` | crates/hos-common/src/tx.rs:26-65 | the buffer is the transaction layout of header and actions |
| `Transactions.TransactionRoundTrip` | crates/hos-common/src/tx.rs:26-101 | the reader recovers every field and action and consumes every byte |
| `Transactions.TransactionCanonical` | crates/hos-common/src/tx.rs:26-101 | the reader accepts nothing but encodings, so only action tags 2 and 3 occur |
| `Transactions.TransactionInjective` | crates/hos-common/src/tx.rs:26-101 | different transactions have different bytes |
| `Transactions.AddKeyTx` | contracts/mpc-recovery/src/tx.rs:7-26 | the buffer is the AddKey transaction layout, signed and received by the account itself |
| `Transactions.AddKeyRoundTrip` | contracts/mpc-recovery/src/tx.rs:7-26 | header and new key come back and no byte is left |
| `Transactions.BuiltIsNeverAddKey` | crates/hos-common/src/tx.rs:26-92 | no built transaction equals any AddKey transaction |
| `Nep413.Payload` | contracts/active-signer/src/nep413.rs:5-25 | the buffer is the NEP-413 layout behind its tag |
| `Nep413.PayloadRoundTrip` | contracts/active-signer/src/nep413.rs:5-25 | text, nonce, recipient and callback URL come back, present or not |
| `Nep413.PayloadInjective` | contracts/active-signer/src/nep413.rs:5-25 | different messages have different payloads |
| `Nep413.CollisionNeedsTagLength` | contracts/active-signer/src/nep413.rs:5-25 | a payload meets transaction bytes only if the signer id is 2^31 + 413 bytes long |
| `Nep413.PayloadIsNeverATransaction` | contracts/active-signer/src/nep413.rs:5-25 | so never, for account ids, with either transaction builder |
| `RecoveryMessages.BuildVerdictMessage` | contracts/mpc-recovery/src/proof.rs:30-40 | the buffer is the verdict layout |
| `RecoveryMessages.CoreRoundTrip` | contracts/mpc-recovery/src/proof.rs:6-19 | domain, contract, account, key of either curve and round come back from the front of the message |
| `RecoveryMessages.RequestInjective` | contracts/mpc-recovery/src/proof.rs:21-28 | different requests have different bytes |
| `RecoveryMessages.VerdictInjective` | contracts/mpc-recovery/src/proof.rs:30-40 | different verdicts, by subject or by silence, have different bytes |
| `RecoveryMessages.RequestIsNeverVerdict` | contracts/mpc-recovery/src/proof.rs:6-40 | no request message is a verdict message |
| `Hex.ToHex` | crates/hos-common/src/tx.rs:67-74 | the loop writes two digits per byte, high nibble first |
| `Hex.HexRoundTrip` | dev-contracts/test-mpc/src/lib.rs:43-66 | reading the digits gives the bytes back |
| `Hex.HexCanonical` | dev-contracts/test-mpc/src/lib.rs:43-66 | writing back what was read gives the input exactly when it has no capitals |
| `Quorum.VerifyQuorum` | contracts/mpc-recovery/src/proof.rs:57-73 | true exactly when the watchers with at least one valid signature in the list number at least the threshold |
| `Quorum.QuorumIgnoresNoise` | contracts/mpc-recovery/src/proof.rs:57-73 | order, duplicates, outsiders and invalid entries never matter |
| `Names.ValidateName` | contracts/tla-registry/src/types.rs:222-242 | accepts exactly 1 to 60 bytes of [a-z0-9_-] with an alphanumeric at both ends |
| `Names.KeysDetermineNames` | contracts/tla-registry/src/types.rs:244-246 | among checked names a key belongs to one name under one TLA |
| `Names.DottedNamesCollide` | contracts/tla-registry/src/types.rs:244-246 | without the check, a dotted name under a TLA has the key of a name under any TLA nested in it, for all names |
| `Names.NestedOrEqual` | contracts/tla-registry/src/types.rs:244-246 | an unchecked name reaches another TLA's entry only if that TLA is nested under the one given |
| `Names.DirectSubaccountShape` | contracts/active-signer/src/lib.rs:582-588 | the two-step stripping accepts exactly label.parent with a non-empty dot-free label |
| `Names.OneParent` | contracts/active-signer/src/lib.rs:582-588 | no two minters may install the same wallet |
| `Names.CheckedNamesAreInstallable` | contracts/active-signer/src/lib.rs:582-588 | a checked name under a TLA is always a wallet that TLA may install |

## Left out

- Cryptography, MPC signing and key derivation: an arbitrary verifier and arbitrary answers stand for them.
- The nonce and deadline windows of the wallet library: a set of used nonces whose commit may refuse.
- Mother accounts: a boolean guard on listing, buying and reclaiming; the stored use counts are not modelled.
- The asset gate: a boolean verdict on each chain; parsing and summing balances is not modelled.
- FT sweep contents and the extension's sweep chain: only the deposit a sweep takes and passes on; what comes back arrives as a plain receipt of tokens.
- Gas, storage reserves and `skim`: the reserve is a parameter of claims and withdrawals.
- Admin, minter, payment-authority and allowlist management: one step that sets them to anything.
- JSON, base58 and base64, events and views: a key is its curve and bytes, and base58 text is taken to be faithful.
- `list_sub_account`, `accept_offer`, `register_tla`, `activate_open_tla`, suspension, fee updates, retraction and `set_main_wallet` are rules and steps of the market but not methods of the class `TlaRegistry`: they would add easy members only.
- RegistryContract.TlaRegistry.RentSubAccount: does not set a default mother for the renter, because mother accounts are a guard only.
- RegistryContract.TlaRegistry.OnBalancesChecked: takes the verdicts of the asset gate and of the mother references as booleans.
- RegistryContract.TlaRegistry.OnReclaimFinalized: does not clear the owner's mother reference, because mother accounts are a guard only.
- Hex.HexRoundTrip: models `from_hex` on strings of characters, its panic as a missing value.
