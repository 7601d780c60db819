# new_crypto_accountant, modelled in Dafny

The modelled system is a crypto-currency tax accountant. It collects the transaction records of
custodial exchanges (KuCoin, Coinbase, Celsius) and of blockchains (Ethereum-like chains through
Etherscan-style explorers, Binance Smart Chain, Algorand, Bitcoin). Per-record mappers turn each
record into *atomic transactions*: single legs that move an amount of one currency from one
address to another at an instant. Legs that belong together form a *transaction bundle* with an
action (purchase, sale, swap, transfer to self, fee payment, free receipt, ...). The bundle
consolidator merges, separates and de-duplicates the bundles of all accounts. Each bundle then
yields its *taxable events*. These events are computed against cost-basis trackers: a per-currency
priority queue of purchase lots that are accrued, consumed and destroyed. The project also models
the account configuration check and the in-memory price cache of the CoinGecko client.

Each module follows one source file:

- `numbers`, `strings`, `collections`, `wrappers`, `heaps`: helpers for absolute values, the
  division of prices and the amount tolerance, lowercasing, `filter`/`groupBy`/`partition`,
  results, and the lot heap. JavaScript's `parseInt` is modelled in `records`.
- `addresses`, `void_address`, `platform_address`, `decentralized_address`,
  `ethereum_like_address`: the address kinds and their instance registries.
- `currency`, `chain_coins`, `atomic_transaction`, `transaction_bundle`, `legs`, `records`:
  the core data types. `legs` holds the shared step that realises a mapper's planned legs
  through the registries.
- `kucoin_ledger_entry`, `celsius_record`, `coinbase_transfer`, `coinbase_conversion`,
  `blockstream_transaction`, `algo_explorer_transaction`, `algorand_transaction`,
  `etherscan_internal_transaction`, `bsc_grouping`: the mappers. Each one has a pure function
  giving the legs it plans. The KuCoin, Celsius, Blockstream, AlgoExplorer and Algorand mappers
  are classes in the source that memoise their legs; there the model has a class whose
  `toAtomicTransactions`/`transactionBundle` methods are proved against that function. The
  Coinbase transfer and conversion, the Etherscan internal transaction and the BSC grouping hold
  no memo in the source and are modelled as functions only.
- `bundle_consolidator`: the consolidation pipeline and its steps.
- `cost_basis_tracker`, `master_cost_basis_tracker`, `taxable_events`: lot tracking and the
  taxable events of a bundle.
- `config`, `coingecko`: the configuration constructor and the price client.

Numbers are modelled as `real` (or `int` where the source truncates with `parseInt`). Instants
are `Date` objects, modelled as a class so that the identity comparisons of the source keep
their meaning. Fetching, files, the clock and the network are left out or become parameters.

## Model

| member | source | states |
|---|---|---|
| AtomicTransactions.ToJson | src/models/atomic_transaction.ts:49-59 | the JSON form copies the instant, action, currency, bundle id and amount, and renders both addresses with `toString()` |
| AtomicTransactions.EqualIffSameJson | src/models/atomic_transaction.ts:38-59 | two legs are `equal` exactly when their JSON forms coincide: the same `Date` object, same fields, same address strings |
| AtomicTransactions.EqualIsEquivalence | src/models/atomic_transaction.ts:38-47 | `equal` is reflexive, symmetric and transitive |
| AtomicTransactions.DistinctDatesNeverEqual | src/models/atomic_transaction.ts:39 | two legs stamped with different `Date` objects are never `equal`, even at the same millisecond |
| AtomicTransactions.Equal | src/models/atomic_transaction.ts:38-47 | `equal`, specified by `EqualIffSameJson` and `EqualIsEquivalence`: the same `Date` object, the same fields and the same address strings |
| Currencies.IsFiatIsCaseSensitive | src/models/currency.ts:20 | the fiat test is case-sensitive: `usd` and `Eur` are not fiat |
| Currencies.CurrencyRegistry.GetInstance | src/models/currency.ts:11-17 | a known ticker returns its stored instance and changes nothing; an unknown one stores and returns a fresh instance with that ticker |
| Currencies.SameTickerSameInstance | src/models/currency.ts:11-17 | two lookups of one ticker return the same instance, and no earlier entry changes |
| DecentralizedAddresses.Normalize | src/addresses/decentralized_address.ts:36 | the stored address always agrees with the given one up to case; with lowercasing on it is a fixed point of lowercasing, so normalising it again changes nothing |
| DecentralizedAddresses.CaseVariantsShareIdentifier | src/addresses/decentralized_address.ts:36-43 | addresses differing only in case give the same `chain-address` identifier |
| DecentralizedAddresses.Registry.GetInstance | src/addresses/decentralized_address.ts:14-28 | the identifier `chain-address` picks the stored instance when present; otherwise the new instance (normalised address, given `controlled`) is stored and returned |
| DecentralizedAddresses.FirstRegistrationWins | src/addresses/decentralized_address.ts:18-27 | a second lookup with a different `controlled` flag returns the first instance and keeps its flag |
| DecentralizedAddresses.CaseVariantsShareInstance | src/addresses/decentralized_address.ts:14-43 | lookups of case variants of one address return the same instance |
| PlatformAddresses.IdentifierDeterminesNickname | src/addresses/platform_address.ts:34-36 | on one platform, the `platform-nickname` identifier determines the nickname |
| PlatformAddresses.Registry.GetInstance | src/addresses/platform_address.ts:14-24 | a known identifier returns its instance unchanged; an unknown one stores and returns a fresh account address |
| PlatformAddresses.SameAccountSameInstance | src/addresses/platform_address.ts:14-24 | two lookups of one account return the same instance, whatever `controlled` flags they pass |
| VoidAddresses.NoteStringInjective | src/addresses/void_address.ts:27-29 | `Void - note` determines the note |
| VoidAddresses.Registry.GetInstance | src/addresses/void_address.ts:17-24 | the note picks the stored uncontrolled instance, or a fresh one is stored under the note |
| VoidAddresses.NewUnregistered | src/addresses/void_address.ts:11-15 | an address built directly with `new` is fresh, uncontrolled and in no registry entry |
| EthereumLikeAddresses.Validate | src/addresses/ethereum_like_address.ts:8-21 | a wrong length throws first, then a missing `0x` prefix, then a non-hex digit; an accepted address is stored lowercased, 42 characters long |
| EthereumLikeAddresses.AcceptsExactly | src/addresses/ethereum_like_address.ts:9-18 | an address is accepted exactly when, lowercased, it is `0x` followed by 40 lowercase hexadecimal digits |
| EthereumLikeAddresses.UpperCaseAccepted | src/addresses/ethereum_like_address.ts:9 | prefix and digits are checked after lowercasing, so `0X` and uppercase digits are accepted |
| EthereumLikeAddresses.New | src/addresses/ethereum_like_address.ts:8-21 | the constructor throws the validator's error or builds a fresh uncontrolled address holding the lowercased text |
| ChainCoins.ChainToCoin | src/currencies.ts:9-13 | the chain-to-coin table has an entry for every chain except Bitcoin |
| ChainCoins.CorrectedChainToCoin | src/currencies.ts:3-13 | the corrected table agrees with the original wherever it has an entry, and never yields `undefined` |
| Legs.ResolvedStays | src/addresses/void_address.ts:17-24 | an address obtained from a registry stays the one obtained while the registries only gain entries |
| Legs.Registries.ResolvedString | src/models/atomic_transaction.ts:45-46 | the resolved address prints as the endpoint it was asked for |
| Legs.Registries.Resolve | src/addresses/platform_address.ts:14-24 | resolving an endpoint goes through the matching `getInstance`, or builds a fresh address, and registries only gain entries |
| Legs.Registries.Realize | src/models/atomic_transaction.ts:18-36 | every planned leg becomes one atomic transaction with those fields and resolved endpoints, each with its own fresh `Date` |
| Legs.LegAmountsAppend | src/models/bitcoin_blockstream/transaction.ts:77-119 | the amount total of two lists of legs is the sum of their totals |
| Records.KeysMatchIff | src/models/kucoin/ledger_entry.ts:32-38 | the constructors' size test on the key sets passes exactly when the record has the required keys and no other |
| Records.FirstMissing | src/models/algorand/transaction.ts:18-22 | nothing is reported when every required attribute is present; otherwise the first missing one in list order is reported |
| Records.ParseInt | src/models/etherscan_like/etherscan_like_internal_transaction.ts:27 | `parseInt` on a decimal numeral truncates toward zero |
| Records.ParseIntOfWhole | src/models/etherscan_like/etherscan_like_internal_transaction.ts:47 | `parseInt` of a whole number is that number |
| Bundles.AnyFromControlled | src/models/transaction_bundle.ts:203-205 | `fromControlled` holds exactly when some leg's sender is controlled |
| Bundles.AnyToControlled | src/models/transaction_bundle.ts:207-209 | `toControlled` holds exactly when some leg's recipient is controlled |
| Bundles.AllAmountsZero | src/models/transaction_bundle.ts:211-214 | every amount is zero; with no legs this holds too, so `isEmpty` is exactly "every amount is 0" |
| Bundles.NonEmptyMovesSomething | src/models/transaction_bundle.ts:211-214 | a bundle that is not empty has a leg with a non-zero amount |
| Bundles.MinCreatedAt | src/models/transaction_bundle.ts:216-218 | the timestamp is the smallest `createdAt` among the legs and is attained by one of them |
| Bundles.NonFee | src/models/transaction_bundle.ts:220-223 | the non-fee legs are exactly the legs that are not fee payments |
| Bundles.SynthetizableIff | src/models/transaction_bundle.ts:225-245 | `synthetizable` holds exactly when there is a non-fee leg and all non-fee legs share one sender, one recipient and one currency |
| Bundles.SyntheticTransaction | src/models/transaction_bundle.ts:247-269 | throws exactly when the bundle is not synthetizable; otherwise copies the first non-fee leg's endpoints, currency, instant and bundle id, with action `--------` and the sum of the non-fee amounts |
| Bundles.PerCurrency | src/models/transaction_bundle.ts:271-282 | one entry per distinct ticker, each the total of that ticker's legs, and every leg's ticker has an entry |
| Bundles.Totals | src/models/transaction_bundle.ts:274-281 | the entry for each listed ticker carries the total of the legs in that ticker |
| Bundles.AmountsOutMeaning | src/models/transaction_bundle.ts:271-282 | the outbound totals count only non-fee legs sent from a controlled address, per ticker |
| Bundles.TransactionIds | src/models/transaction_bundle.ts:297-299 | the distinct bundle ids of the legs: no repeats, every leg's id present, no id not carried by a leg |
| Bundles.FeeTransaction | src/models/transaction_bundle.ts:301-312 | throws "never supposed to be received" exactly when a fee leg is received by a controlled address; otherwise throws "only one fee" exactly when two legs are fee legs sent from a controlled address; no other error; otherwise yields the outbound fee leg, which is then the only one, or nothing when no fee leg is sent from a controlled address |
| Bundles.HasEqual | src/models/transaction_bundle.ts:600 | some leg of the other bundle is `equal` to the given leg |
| Bundles.EveryHasEqual | src/models/transaction_bundle.ts:599-600 | every leg of this bundle has an `equal` leg in the other |
| Bundles.BundleEqualReflexive | src/models/transaction_bundle.ts:595-601 | every bundle is `equal` to itself |
| Bundles.BundleEqualNotSymmetric | src/models/transaction_bundle.ts:595-601 | `equal` is containment: `[x, x]` equals `[x, y]` while `[x, y]` does not equal `[x, x]` |
| Bundles.CompleteKeepsContent | src/models/transaction_bundle.ts:586-593 | `complete()` keeps the legs, action and id, sets the status complete, drops the notes, and is `equal` to the original both ways |
| Bundles.CompleteKeepsClassification | src/models/transaction_bundle.ts:586-593 | completing a bundle changes neither whether it is empty nor whether it is synthetizable |
| Bundles.MemoizedBundle.NonFeeTransactions | src/models/transaction_bundle.ts:220-223 | the memoised getter returns the non-fee legs and stores them |
| Bundles.MemoizedBundle.GetSynthetizable | src/models/transaction_bundle.ts:225-245 | the memoised getter returns `synthetizable` and stores it; a stored answer is returned as is |
| Bundles.IsPureFee | src/models/transaction_bundle.ts:199-201 | `isPureFee`, specified by `BscGrouping.GroupRules`: a lone fee-payment leg is what turns a BSC group into a `pureFeePayment` bundle |
| Bundles.IsEmpty | src/models/transaction_bundle.ts:211-214 | `isEmpty`, specified by `AllAmountsZero` and `NonEmptyMovesSomething`: empty exactly when every amount is zero, and a non-empty bundle moves a non-zero amount |
| Bundles.Timestamp | src/models/transaction_bundle.ts:216-218 | `timestamp`, specified by `MinCreatedAt`: absent with no legs, otherwise the smallest `createdAt`, attained by some leg |
| Bundles.Synthetizable | src/models/transaction_bundle.ts:225-245 | `synthetizable`, specified by `SynthetizableIff`: a non-fee leg exists and all non-fee legs share sender, recipient and currency |
| Bundles.AmountsOut | src/models/transaction_bundle.ts:271-282 | `amountsOutPerCurrency`, specified by `PerCurrency` and `AmountsOutMeaning`: one total per ticker of the non-fee legs sent from a controlled address |
| Bundles.AmountsIn | src/models/transaction_bundle.ts:284-295 | `amountsInPerCurrency`, specified by `PerCurrency` and `AmountsInMeaning`: one total per ticker of the non-fee legs received by a controlled address |
| Bundles.AmountsInMeaning | src/models/transaction_bundle.ts:284-295 | the inbound totals count only non-fee legs received by a controlled address, per ticker |
| Bundles.CompleteBundle | src/models/transaction_bundle.ts:586-593 | `complete()`, specified by `CompleteKeepsContent` and `CompleteKeepsClassification`: same legs, action and id, status complete, no notes |
| Bundles.BundleEqual | src/models/transaction_bundle.ts:595-601 | `equal`, specified by `EveryHasEqual`, `BundleEqualReflexive` and `BundleEqualNotSymmetric`: one-way containment up to leg equality |
| TaxableEvents.FirstFrom | src/models/transaction_bundle.ts:350 | the `find(...)?.from` is present exactly when some leg is sent from a controlled address, and is then such a leg's sender |
| TaxableEvents.FirstTo | src/models/transaction_bundle.ts:351 | the `find(...)?.to` is present exactly when some leg is received by a controlled address, and is then such a leg's recipient |
| TaxableEvents.AmountsDisagreeSymmetric | src/models/transaction_bundle.ts:333-338 | the transfer-to-self tolerance check never rejects equal amounts and does not depend on which side is inbound |
| TaxableEvents.AmountsDisagreePositive | src/models/transaction_bundle.ts:333-338 | for positive amounts, the check rejects exactly when the difference exceeds 1e-6 times the mean |
| TaxableEvents.EntriesHaveLegs | src/models/transaction_bundle.ts:350-351 | whenever there is an outbound (inbound) amount, the finds for a controlled sender (recipient) among all legs and among non-fee legs succeed |
| TaxableEvents.OutboundLegFound | src/models/transaction_bundle.ts:350 | a non-fee leg counted in an outbound amount makes both sender finds succeed |
| TaxableEvents.InboundLegFound | src/models/transaction_bundle.ts:351 | a non-fee leg counted in an inbound amount makes both recipient finds succeed |
| TaxableEvents.ActionErrorsLeaveLotsUnchanged | src/models/transaction_bundle.ts:315-579 | every error an action branch can raise is raised before any tracker is touched; the errors raised after a tracker update cannot occur |
| TaxableEvents.ErrorsLeaveLotsUnchanged | src/models/transaction_bundle.ts:315-584 | whenever `getTaxableEvents` throws, every cost-basis tracker is as before |
| TaxableEvents.TaxSpecDispatch | src/models/transaction_bundle.ts:315-320 | once the fee getter succeeds, the result is that of the branch for the bundle's action, on the bundle's amounts, fee and finds |
| TaxableEvents.TransferToSelfOutcome | src/models/transaction_bundle.ts:321-370 | each of the four transfer errors occurs exactly on its condition; without a fee the result is `null` and no tracker changes; with one, the amount is the mean of both sides and the fee amount is destroyed in the fee's currency |
| TaxableEvents.PurchaseCostBasis | src/models/transaction_bundle.ts:388-428 | a purchase accrues the coin at (fiat paid + fee cost) per unit received, then consumes a non-fiat fee, and returns a buy summary |
| TaxableEvents.SaleBenefit | src/models/transaction_bundle.ts:429-473 | a sale consumes exactly the amount sold, returns those consumptions, and its benefit is fiat received minus their cost minus the fee cost |
| TaxableEvents.SwapBenefit | src/models/transaction_bundle.ts:475-536 | a swap consumes exactly the amount given (after accruing the other coin) and its benefit is the market value received minus the consumed cost minus the fee cost |
| TaxableEvents.AccrueAllPushesEach | src/models/transaction_bundle.ts:555-568 | accruing distinct currencies at price 0 pushes one zero-priced lot per currency and leaves every other currency's lots alone |
| TaxableEvents.GetFreeAccruesAtZero | src/models/transaction_bundle.ts:539-578 | a `getFree` bundle returns its inbound amounts as the gain, benefit equal to their market value minus the fee cost, and each currency gets a zero-priced lot after the fee's destruction |
| TaxableEvents.OtherActionsReportNothing | src/models/transaction_bundle.ts:579 | any other action returns `null` and changes no tracker, unless the fee getter throws |
| TaxableEvents.SaleExample | src/models/transaction_bundle.ts:429-473 | selling 1 ETH bought at 1000 for 6000 USD yields benefit 5000 and empties the lot |
| TaxableEvents.SumCost | src/models/transaction_bundle.ts:454-458 | the loop sums amount times price over the consumptions |
| TaxableEvents.ConsumeFeeOn | src/models/transaction_bundle.ts:401-410 | a non-fiat fee is consumed from the master tracker; the new lots are those of the functional model |
| TaxableEvents.TransferToSelfOn | src/models/transaction_bundle.ts:321-370 | the transfer branch on the master tracker object gives the result and lots of `TransferToSelfEvent` |
| TaxableEvents.PurchaseOn | src/models/transaction_bundle.ts:388-428 | the purchase branch on the tracker object agrees with `PurchaseEvent` |
| TaxableEvents.SaleOn | src/models/transaction_bundle.ts:429-473 | the sale branch on the tracker object agrees with `SaleEvent` |
| TaxableEvents.SwapMovesOn | src/models/transaction_bundle.ts:490-519 | the swap's accrual, consumption and fee consumption on the tracker object, in that order, agree with `SwapMoves` |
| TaxableEvents.SwapOn | src/models/transaction_bundle.ts:475-536 | the swap branch on the tracker object agrees with `SwapEvent` |
| TaxableEvents.TradeOn | src/models/transaction_bundle.ts:372-537 | the trade branch on the tracker object agrees with `TradeEvent` |
| TaxableEvents.AccrueAllOn | src/models/transaction_bundle.ts:554-568 | the `getFree` loop accrues every inbound amount at price 0 and sums their market value |
| TaxableEvents.GetFreeOn | src/models/transaction_bundle.ts:539-578 | the `getFree` branch on the tracker object agrees with `GetFreeEvent` |
| TaxableEvents.GetTaxableEvents | src/models/transaction_bundle.ts:315-584 | the method on the master tracker returns the result of `TaxSpec` and leaves the lots `TaxSpec` predicts |
| TaxableEvents.TaxSpec | src/models/transaction_bundle.ts:315-584 | `getTaxableEvents` on lots, specified by `TaxSpecDispatch` and `ErrorsLeaveLotsUnchanged`: the branch of the bundle's action runs after the fee getter, and a thrown error leaves every tracker unchanged |
| TaxableEvents.TransferToSelfEvent | src/models/transaction_bundle.ts:321-370 | the transfer-to-self branch, specified by `TransferToSelfOutcome`: its four errors exactly on their conditions, `null` and no tracker change without a fee |
| TaxableEvents.PurchaseEvent | src/models/transaction_bundle.ts:388-428 | the purchase branch, specified by `PurchaseCostBasis`: accrual at (fiat paid + fee cost) per unit, then the non-fiat fee consumed |
| TaxableEvents.SaleEvent | src/models/transaction_bundle.ts:429-473 | the sale branch, specified by `SaleBenefit` and `SaleExample`: exactly the amount sold is consumed and the benefit is fiat received minus cost minus fee cost |
| TaxableEvents.SwapEvent | src/models/transaction_bundle.ts:475-536 | the swap branch, specified by `SwapBenefit`: the coin received is accrued, the coin given consumed, and the benefit is market value minus consumed cost minus fee cost |
| TaxableEvents.GetFreeEvent | src/models/transaction_bundle.ts:539-578 | the `getFree` branch, specified by `GetFreeAccruesAtZero`: every inbound currency gets a zero-priced lot and the benefit is market value minus fee cost |
| Heaps.InsertIndex | src/taxes/cost_basis_tracker.ts:21 | the position `push` inserts at lies within the queue |
| Heaps.InsertIndexSplits | src/taxes/cost_basis_tracker.ts:21 | every entry before the insertion point has a key at least the new one's; in a descending queue every entry from it on has a smaller key |
| Heaps.Push | src/taxes/cost_basis_tracker.ts:21 | `push` adds exactly one entry and keeps a descending queue descending |
| Heaps.PushPlacement | src/taxes/cost_basis_tracker.ts:21 | `push` puts the new lot after every lot priced at least as high and in front of the first cheaper one, the others keeping their order |
| Heaps.InsertKeepsOrder | src/taxes/cost_basis_tracker.ts:21 | inserting at the insertion point keeps the queue in descending price order |
| Heaps.PeekIsMax | src/taxes/cost_basis_tracker.ts:36 | `peek` returns a lot with the highest price in the queue |
| Numbers.Div | src/models/transaction_bundle.ts:394 | the division of the per-unit purchase price and of the tracker prices: whenever the divisor is non-zero the quotient times the divisor gives back the dividend |
| CostBasis.ConsumeFrom | src/taxes/cost_basis_tracker.ts:28-75 | `consume` always reports at least one entry and at most one more than the lots held, and never grows the heap |
| CostBasis.DestroyFrom | src/taxes/cost_basis_tracker.ts:87-125 | `destroy` always reports at least one entry and at most one more than the lots held, and never grows the heap |
| CostBasis.Folded | src/taxes/cost_basis_tracker.ts:93-94 | a lot destroyed in full keeps its amount and bundle, and its total cost grows by the cost carried from the lots destroyed before it |
| CostBasis.ConsumeReportsRequestedAmount | src/taxes/cost_basis_tracker.ts:35-74 | the amounts `consume` reports add up to the amount requested |
| CostBasis.ConsumeShape | src/taxes/cost_basis_tracker.ts:39-72 | `consume` reports the highest-priced lots popped whole, in heap order, then either the shortfall entry (empty heap, note "Consumed more than was accrued.", no bundle, price 0) or a partial take from the next lot whose remainder stays on top |
| CostBasis.ConsumePopsOnlySmallerLots | src/taxes/cost_basis_tracker.ts:39 | a lot is popped whole only when its amount is below what is still to consume |
| CostBasis.ConsumeKeepsOrder | src/taxes/cost_basis_tracker.ts:39-63 | after `consume` the heap is still in descending price order |
| CostBasis.ConsumeExactLeavesZeroLot | src/taxes/cost_basis_tracker.ts:39-63 | consuming exactly the top lot's amount leaves that lot on the heap with amount zero |
| CostBasis.ConsumeShortfall | src/taxes/cost_basis_tracker.ts:64-72 | consuming more than is held empties the heap and reports the excess at price 0 with the shortfall note |
| CostBasis.DestroyReportsRequestedAmount | src/taxes/cost_basis_tracker.ts:88-124 | the amounts `destroy` reports add up to the amount requested |
| CostBasis.DestroyShape | src/taxes/cost_basis_tracker.ts:92-122 | `destroy` pops whole lots, then either reports the shortfall (price 0, note "Destroyed more than was accrued.", no bundle) or leaves the next lot with the remaining amount and its whole original cost, same key and bundle, on top of the untouched rest |
| CostBasis.DestroyDropsAccumulatedCost | src/taxes/cost_basis_tracker.ts:90-113 | the cost carried over from lots destroyed in full never reaches the heap that is left |
| CostBasis.DestroyKeepsOrder | src/taxes/cost_basis_tracker.ts:92-122 | after `destroy` the heap is still keyed in descending order |
| CostBasis.DestroyAcrossLotsExample | src/taxes/cost_basis_tracker.ts:87-125 | destroying 2 units from lots (1 at 10, 10 at 1) reports 1 at 10 and 1 at 10/9 and leaves 9 units at 10/9 |
| CostBasis.HighestPriceFirstExample | src/taxes/cost_basis_tracker.ts:21-50 | after buying at 100 then at 200, consuming one unit takes the lot bought at 200 |
| CostBasis.CostBasisTracker.Accrue | src/taxes/cost_basis_tracker.ts:19-25 | `accrue` pushes the lot keyed by its price and returns the accrual entry |
| CostBasis.CostBasisTracker.Consume | src/taxes/cost_basis_tracker.ts:28-75 | the loop over the heap returns the entries and leaves the heap `ConsumeFrom` defines |
| CostBasis.CostBasisTracker.Destroy | src/taxes/cost_basis_tracker.ts:87-125 | the loop over the heap returns the entries and leaves the heap `DestroyFrom` defines |
| MasterCostBasis.OtherCurrenciesUnchanged | src/taxes/master_cost_basis_tracker.ts:7-24 | an accrue, consume or destroy adds the currency's tracker if missing and leaves every other currency's lots as they were |
| MasterCostBasis.AccrueKeepsOrder | src/taxes/master_cost_basis_tracker.ts:7-14 | accruing keeps every currency's heap in descending order |
| MasterCostBasis.ConsumeKeepsOrderIn | src/taxes/master_cost_basis_tracker.ts:16-19 | consuming keeps every currency's heap in descending order |
| MasterCostBasis.DestroyKeepsOrderIn | src/taxes/master_cost_basis_tracker.ts:21-24 | destroying keeps every currency's heap in descending order |
| MasterCostBasis.NeverAccruedShortfall | src/taxes/master_cost_basis_tracker.ts:16-24 | consuming or destroying a currency never accrued reports the whole amount as a shortfall and leaves its heap empty |
| MasterCostBasis.MasterCostBasisTracker.TrackerFor | src/taxes/master_cost_basis_tracker.ts:12-22 | the lazy lookup returns the currency's tracker, creating an empty one only when missing |
| MasterCostBasis.MasterCostBasisTracker.Accrue | src/taxes/master_cost_basis_tracker.ts:7-14 | the update and the lots afterwards are those of `AccrueIn` |
| MasterCostBasis.MasterCostBasisTracker.Consume | src/taxes/master_cost_basis_tracker.ts:16-19 | the updates and the lots afterwards are those of `ConsumeIn` |
| MasterCostBasis.MasterCostBasisTracker.Destroy | src/taxes/master_cost_basis_tracker.ts:21-24 | the updates and the lots afterwards are those of `DestroyIn` |
| MasterCostBasis.AccrueIn | src/taxes/master_cost_basis_tracker.ts:7-14 | `accrue` on the lots of every currency, specified by `OtherCurrenciesUnchanged` and `AccrueKeepsOrder`: only that currency's heap changes, and it stays in descending order |
| MasterCostBasis.ConsumeIn | src/taxes/master_cost_basis_tracker.ts:16-19 | `consume` on the lots of every currency, specified by `OtherCurrenciesUnchanged`, `ConsumeKeepsOrderIn` and `NeverAccruedShortfall` |
| MasterCostBasis.DestroyIn | src/taxes/master_cost_basis_tracker.ts:21-24 | `destroy` on the lots of every currency, specified by `OtherCurrenciesUnchanged`, `DestroyKeepsOrderIn` and `NeverAccruedShortfall` |
| Consolidation.SeparateShitcoins | src/aggregators/bundle_consolidator.ts:68-73 | the partition splits the bundles, without loss, into those whose first leg's ticker is on the upper-cased exclusion list and the rest |
| Consolidation.ExclusionIgnoresCase | src/aggregators/bundle_consolidator.ts:69-71 | a bundle whose first leg's ticker is the upper-case form of a listed coin is excluded, whatever the case it was listed in |
| Consolidation.SeparateComplete | src/aggregators/bundle_consolidator.ts:163-166 | the partition splits the bundles, without loss, into complete and incomplete ones |
| Consolidation.Others | src/aggregators/bundle_consolidator.ts:209-223 | the bundles identical to the popped one and those left in the set together number as many as the rest of the array |
| Consolidation.SplitMembers | src/aggregators/bundle_consolidator.ts:209-223 | the identical bundles are exactly the members of the array `equal` to the popped one; the others are exactly the rest |
| Consolidation.DedupCounts | src/aggregators/bundle_consolidator.ts:205-225 | within a group, each deduplicated transfer accounts for two reports and each kept bundle for one |
| Consolidation.DedupOrigins | src/aggregators/bundle_consolidator.ts:205-225 | every complete bundle is the `transfer` made from a bundle of the group, and every incomplete one is a bundle of the group |
| Consolidation.DistinctGroupStaysIncomplete | src/aggregators/bundle_consolidator.ts:206-224 | a group with no two `equal` bundles is kept whole as incomplete, the last bundle of the array first |
| Consolidation.NoneRejected | src/aggregators/bundle_consolidator.ts:209-223 | when no bundle of the array is `equal` to the popped one, none is removed with it |
| Consolidation.PairBecomesOneTransfer | src/aggregators/bundle_consolidator.ts:210-219 | two `equal` reports of one transfer become one complete `transfer` bundle with the second one's legs and id |
| Consolidation.ThreeReportsThrow | src/aggregators/bundle_consolidator.ts:211-213 | three mutually `equal` reports throw, naming the id and the count 3 |
| Consolidation.DedupGroupsAccounts | src/aggregators/bundle_consolidator.ts:192-230 | over all groups, the counting and origin facts hold for the flattened groups |
| Consolidation.RemoveDuplicatesAccounts | src/aggregators/bundle_consolidator.ts:184-231 | `removeDuplicates` accounts for every input bundle: twice the complete ones plus the incomplete ones is the input size, and every output comes from the input |
| Consolidation.DedupGroupOn | src/aggregators/bundle_consolidator.ts:205-225 | the `while` loop over the shrinking set gives the result of `DedupFrom` |
| Consolidation.RemoveDuplicatesOn | src/aggregators/bundle_consolidator.ts:184-231 | the `reduce` over the id groups gives the result of `RemoveDuplicates` |
| Consolidation.AllTransactionsPermutation | src/aggregators/bundle_consolidator.ts:239 | reordering bundles does not change the multiset of their legs |
| Consolidation.SplitGroups | src/aggregators/bundle_consolidator.ts:172-181 | the shared and unique lists together are exactly the grouped bundles |
| Consolidation.SplitGroupsMembers | src/aggregators/bundle_consolidator.ts:175-179 | a bundle lands in the shared list exactly when its group has more than one member |
| Consolidation.SeparateByIdSharing | src/aggregators/bundle_consolidator.ts:168-182 | the shared and unique lists together are a permutation of the input |
| Consolidation.SharingFollowsIdCount | src/aggregators/bundle_consolidator.ts:168-182 | a bundle is in the shared list exactly when another input bundle has its id, and in the unique list exactly when none does |
| Consolidation.MergeSiblings | src/aggregators/bundle_consolidator.ts:233-244 | one merged bundle per distinct id, in first-seen order, each being that id's group merged |
| Consolidation.SiblingIdsDistinct | src/aggregators/bundle_consolidator.ts:233-244 | the merged bundles have pairwise distinct ids, and every input id is among them |
| Consolidation.SiblingsKeepLegs | src/aggregators/bundle_consolidator.ts:237-243 | merging siblings keeps exactly the input legs |
| Consolidation.SeparateBothControlled | src/aggregators/bundle_consolidator.ts:155-161 | the partition splits the bundles, without loss, into those controlled at both ends and the rest |
| Consolidation.ClassifyStep | src/aggregators/bundle_consolidator.ts:86-103 | one step of the `reduce` throws exactly on a bundle controlled at both ends, or synthetizable and controlled at neither |
| Consolidation.ClassifyFailsOnMisfit | src/aggregators/bundle_consolidator.ts:85-108 | the classification throws exactly when some bundle is such a misfit |
| Consolidation.ClassifyStepSorts | src/aggregators/bundle_consolidator.ts:86-103 | a step puts the bundle in exactly one pool: outbound candidates, inbound candidates or unsynthetizable orphans |
| Consolidation.ClassifySorts | src/aggregators/bundle_consolidator.ts:85-108 | after the `reduce`, the pools hold exactly the input bundles, each in the pool its control and synthetizability call for |
| Consolidation.CloseInTimeMeans | src/aggregators/bundle_consolidator.ts:132 | the time clause admits an inbound record exactly when it is less than an hour earlier than the outbound one, or later |
| Consolidation.InsertByTime | src/aggregators/bundle_consolidator.ts:116 | inserting keeps the candidates' multiset and their order by synthetic time |
| Consolidation.SortByTime | src/aggregators/bundle_consolidator.ts:114-116 | the sort is a permutation ordered by the synthetic transaction's time |
| Consolidation.FindFirst | src/aggregators/bundle_consolidator.ts:117-133 | the `find` fails exactly when no candidate matches and otherwise returns a matching candidate |
| Consolidation.FirstMatchEarliest | src/aggregators/bundle_consolidator.ts:116-133 | on a time-ordered list the candidate found is no later than any other match |
| Consolidation.MatchIsEarliest | src/aggregators/bundle_consolidator.ts:114-133 | the match for an outbound bundle is absent exactly when no inbound candidate matches, and is otherwise the earliest match |
| Consolidation.MatchStepKeepsLegs | src/aggregators/bundle_consolidator.ts:135-147 | pairing or orphaning an outbound bundle loses and invents no leg |
| Consolidation.MatchFromsKeepLegs | src/aggregators/bundle_consolidator.ts:112-148 | the matching loop loses and invents no leg |
| Consolidation.MergeByTimeKeepsLegs | src/aggregators/bundle_consolidator.ts:75-153 | consolidated and orphan bundles together hold exactly the input legs |
| Consolidation.MergeByTimeFailsOnMisfit | src/aggregators/bundle_consolidator.ts:85-108 | `mergeBundlesByAmountCurrencyAndTime` throws exactly when some input bundle is a misfit |
| Consolidation.MatchFromsMergesComplete | src/aggregators/bundle_consolidator.ts:136-143 | every bundle the loop consolidates is complete with the action still to be determined |
| Consolidation.MergeByTimeOn | src/aggregators/bundle_consolidator.ts:75-153 | the `reduce` and the `forEach` over the outbound set give the result of `MergeByTime` |
| Consolidation.MatchFromsKeeps | src/aggregators/bundle_consolidator.ts:144-150 | orphans and unmatched inbound bundles come from the pools |
| Consolidation.OrphansFromInput | src/aggregators/bundle_consolidator.ts:93-150 | every orphan is an input bundle with the property all inputs share |
| Consolidation.MergePairLegit | src/aggregators/bundle_consolidator.ts:136-142 | a pair led by a kept outbound bundle is kept too |
| Consolidation.MergeGroupLegit | src/aggregators/bundle_consolidator.ts:238-243 | a sibling group led by a kept bundle merges into a kept bundle |
| Consolidation.MergeByTimeLegit | src/aggregators/bundle_consolidator.ts:75-153 | from kept inputs, every consolidated bundle and orphan is kept |
| Consolidation.SiblingsLegit | src/aggregators/bundle_consolidator.ts:233-244 | from kept inputs, every merged sibling bundle is kept |
| Consolidation.DedupLegit | src/aggregators/bundle_consolidator.ts:184-231 | from kept inputs, every deduplicated bundle is kept |
| Consolidation.KeptAreLegit | src/aggregators/bundle_consolidator.ts:13-17 | the bundles past the first two filters are non-empty and not excluded |
| Consolidation.ConsolidateKeepsLegit | src/aggregators/bundle_consolidator.ts:12-66 | no bundle of the result is empty or has a first-leg ticker on the exclusion list |
| Consolidation.ConsolidateAllKept | src/aggregators/bundle_consolidator.ts:58-65 | each of the six concatenated lists holds only kept bundles |
| Consolidation.ConsolidatePassesIncompleteThrough | src/aggregators/bundle_consolidator.ts:12-66 | every bundle of the result is complete or an input bundle passed through unchanged |
| Consolidation.MatchFromsSettled | src/aggregators/bundle_consolidator.ts:136-143 | the consolidated pairs are complete and still to be determined |
| Consolidation.BundleConsolidator.constructor | src/aggregators/bundle_consolidator.ts:8-10 | stores the bundles |
| Consolidation.BundleConsolidator.ConsolidateBundles | src/aggregators/bundle_consolidator.ts:12-66 | the pipeline of stages gives the result of `Consolidate` |
| Consolidation.Consolidate | src/aggregators/bundle_consolidator.ts:12-66 | `consolidateBundles` on values, specified by `ConsolidateKeepsLegit`, `ConsolidateAllKept` and `ConsolidatePassesIncompleteThrough` |
| Consolidation.RemoveDuplicates | src/aggregators/bundle_consolidator.ts:184-231 | `removeDuplicates`, specified by `RemoveDuplicatesAccounts` and `DedupLegit`: every input bundle accounted for, twice per deduplicated transfer |
| Consolidation.DedupFrom | src/aggregators/bundle_consolidator.ts:205-225 | the `while` loop over one id group, specified by `DedupCounts`, `DedupOrigins`, `DistinctGroupStaysIncomplete`, `PairBecomesOneTransfer` and `ThreeReportsThrow` |
| Consolidation.Classify | src/aggregators/bundle_consolidator.ts:85-108 | the classifying `reduce`, specified by `ClassifySorts` and `ClassifyFailsOnMisfit`: each bundle lands in the pool its control calls for, and misfits throw |
| Consolidation.CloseInTime | src/aggregators/bundle_consolidator.ts:132 | the time clause of the `find`, specified by `CloseInTimeMeans`: less than an hour earlier, or later |
| Consolidation.Matches | src/aggregators/bundle_consolidator.ts:117-133 | the predicate of the `find`, specified by `FindFirst`, `FirstMatchEarliest` and `MatchIsEarliest`: the match chosen is the earliest candidate satisfying it |
| Consolidation.MatchFroms | src/aggregators/bundle_consolidator.ts:112-148 | the `forEach` over the outbound set, specified by `MatchFromsKeepLegs`, `MatchFromsMergesComplete` and `MatchFromsKeeps` |
| Consolidation.MergeByTime | src/aggregators/bundle_consolidator.ts:75-153 | `mergeBundlesByAmountCurrencyAndTime`, specified by `MergeByTimeKeepsLegs`, `MergeByTimeFailsOnMisfit` and `MergeByTimeLegit` |
| Consolidation.MergePair | src/aggregators/bundle_consolidator.ts:136-142 | the bundle made of a pair, specified by `MergePairLegit` and `MatchFromsMergesComplete`: complete, still to be determined, and kept when its outbound half is |
| Consolidation.MergeGroup | src/aggregators/bundle_consolidator.ts:238-243 | one sibling group merged, specified by `MergeSiblings`, `SiblingsKeepLegs` and `MergeGroupLegit` |
| BscGrouping.CombineLegs | src/accounts/binance_smart_chain_account.ts:87-106 | whatever the group's size, the bundle standing for it holds the group's legs in order |
| BscGrouping.GroupBundles | src/accounts/binance_smart_chain_account.ts:82-106 | one output bundle per distinct id of the non-empty bundles, in first-seen order, each standing for that id's group |
| BscGrouping.OutputIds | src/accounts/binance_smart_chain_account.ts:87-106 | the bundle of each group carries the group's id |
| BscGrouping.OutputIdsFromInput | src/accounts/binance_smart_chain_account.ts:82-87 | every output id is the id of a non-empty input bundle |
| BscGrouping.InputIdsCovered | src/accounts/binance_smart_chain_account.ts:82-87 | every non-empty input bundle's id is an output id |
| BscGrouping.OutputIdsDistinct | src/accounts/binance_smart_chain_account.ts:86-87 | no two output bundles share an id |
| BscGrouping.AllOutputIdsFromInput | src/accounts/binance_smart_chain_account.ts:82-87 | all output ids come from non-empty input bundles |
| BscGrouping.AllInputIdsCovered | src/accounts/binance_smart_chain_account.ts:82-87 | all non-empty input bundles' ids are output ids |
| BscGrouping.OneBundlePerId | src/accounts/binance_smart_chain_account.ts:82-106 | exactly one output bundle per id of the non-empty input bundles |
| BscGrouping.GroupRules | src/accounts/binance_smart_chain_account.ts:88-105 | a lone pure-fee bundle becomes a complete `pureFeePayment` bundle; any other lone bundle is returned as is; a larger group becomes one incomplete `toBeDetermined` bundle of all its legs |
| BscGrouping.CombinedGroupsLegs | src/accounts/binance_smart_chain_account.ts:87-106 | the combined bundles hold the legs of the flattened groups, in order |
| BscGrouping.GroupingKeepsLegs | src/accounts/binance_smart_chain_account.ts:82-106 | regrouping loses and invents no leg: the output holds exactly the legs of the non-empty bundles |
| EtherscanInternalTransactions.NewInternalTransaction | src/models/etherscan_like/etherscan_like_internal_transaction.ts:12-24 | construction succeeds exactly when every listed attribute is present; otherwise it names a listed attribute that is missing |
| EtherscanInternalTransactions.ExtraKeysAllowed | src/models/etherscan_like/etherscan_like_internal_transaction.ts:17-21 | extra attribute keys never make the constructor throw |
| EtherscanInternalTransactions.TimeStampMs | src/models/etherscan_like/etherscan_like_internal_transaction.ts:30-32 | the timestamp in seconds is turned into whole milliseconds |
| EtherscanInternalTransactions.Amount | src/models/etherscan_like/etherscan_like_internal_transaction.ts:46-48 | the amount times 10^18 is the whole number of wei the value's numeral starts with |
| EtherscanInternalTransactions.GettersAreLowercase | src/models/etherscan_like/etherscan_like_internal_transaction.ts:34-64 | the hash, sender, receiver and contract address getters return lowercase text |
| EtherscanInternalTransactions.PlannedLegsSpec | src/models/etherscan_like/etherscan_like_internal_transaction.ts:86-104 | a malformed sender throws first, then a malformed receiver; otherwise one leg of the chain's coin between the lowercased addresses, with the amount in coins and the time in milliseconds |
| EtherscanInternalTransactions.LegCurrencyOnEvmChains | src/models/etherscan_like/etherscan_like_internal_transaction.ts:91 | on Ethereum the leg is in ETH, on Polygon in MATIC |
| EtherscanInternalTransactions.PlannedLegs | src/models/etherscan_like/etherscan_like_internal_transaction.ts:86-104 | specified by `PlannedLegsSpec` and `LegCurrencyOnEvmChains` |
| AlgorandTransactions.Amount | src/models/algorand/transaction.ts:40-42 | the amount times 10^6 is the whole number of microalgos of the payment |
| AlgorandTransactions.BundleIdIffSameHash | src/models/algorand/transaction.ts:44-50 | two transactions share a bundle id exactly when their ids agree up to case |
| AlgorandTransactions.SingleAlgoLeg | src/models/algorand/transaction.ts:58-81 | one ALGO leg from the lowercased sender to the lowercased receiver, with the amount in algos, bundle id `algorand-<id>` and the round time in milliseconds |
| AlgorandTransactions.AlgorandTransaction.constructor | src/models/algorand/transaction.ts:15-26 | stores the attributes with no legs computed yet |
| AlgorandTransactions.AlgorandTransaction.ToAtomicTransactions | src/models/algorand/transaction.ts:58-81 | the first call builds the planned leg, registering its addresses, and stores it; later calls return the stored legs and change nothing |
| AlgorandTransactions.AlgorandTransaction.Bundle | src/models/algorand/transaction.ts:52-56 | the bundle is incomplete, with the empty action, the bundle id and the memoised legs |
| AlgorandTransactions.NewAlgorandTransaction | src/models/algorand/transaction.ts:15-26 | construction succeeds exactly when every listed attribute is present, and otherwise names the first one missing in list order |
| AlgorandTransactions.BundleId | src/models/algorand/transaction.ts:44-50 | specified by `BundleIdIffSameHash`: two transactions share a bundle id exactly when their ids agree up to case |
| AlgorandTransactions.PlannedLegs | src/models/algorand/transaction.ts:58-81 | specified by `SingleAlgoLeg`: one ALGO leg between the lowercased sender and receiver |
| KucoinLedger.BundleIdSplits | src/models/kucoin/ledger_entry.ts:65-80 | the bundle id is the bizType's prefix followed by the trade id, the small-currency exchange id or the entry id |
| KucoinLedger.PrefixTag | src/models/kucoin/ledger_entry.ts:70-79 | the eighth character of the prefix identifies `Exchange` and `Convert to KCS` ids |
| KucoinLedger.BundleIdIdentifiesCorrelation | src/models/kucoin/ledger_entry.ts:65-80 | two entries with the same bundle id are correlated by the same kind of id with the same value |
| KucoinLedger.ShapeTable | src/models/kucoin/ledger_entry.ts:98-127 | the action and status of each bizType: trades incomplete, income complete `getFree`, deposits and withdrawals incomplete transfers, the rest of the known ones complete no-ops; any other bizType throws |
| KucoinLedger.ShapeAndLegsAgree | src/models/kucoin/ledger_entry.ts:124-176 | the bundle getter and the legs getter reject exactly the same bizTypes |
| KucoinLedger.DirectionGuards | src/models/kucoin/ledger_entry.ts:237-381 | income, deposits and redemptions throw when flowing out, staking and withdrawals when flowing in, and these are the only direction errors |
| KucoinLedger.FeeGuard | src/models/kucoin/ledger_entry.ts:240-405 | every known bizType other than `Exchange` and `Withdrawal` throws on a positive fee once its direction passes |
| KucoinLedger.NoLegsExactly | src/models/kucoin/ledger_entry.ts:234-336 | an entry yields no leg exactly when it is a redemption, staking or transfer |
| KucoinLedger.LegsDescribeEntry | src/models/kucoin/ledger_entry.ts:49-432 | every leg has the entry's time, currency, non-zero amount and bundle id |
| KucoinLedger.FeeLegFirst | src/models/kucoin/ledger_entry.ts:186-358 | an exchange or withdrawal with a positive fee starts with a fee leg from the account to the Kucoin void, carrying the entry's amount; no other entry has a fee leg |
| KucoinLedger.MainLegOrientation | src/models/kucoin/ledger_entry.ts:203-420 | the main leg goes to the account exactly when the direction is `in`, and from it exactly when it is `out` |
| KucoinLedger.PlannedLegsFixBundleId | src/models/kucoin/ledger_entry.ts:183-185 | whenever legs are built, the bundle id getter does not throw |
| KucoinLedger.LedgerEntry.constructor | src/models/kucoin/ledger_entry.ts:30-43 | stores the attributes and nickname with no legs computed yet |
| KucoinLedger.LedgerEntry.ToAtomicTransactions | src/models/kucoin/ledger_entry.ts:137-179 | a stored result is returned unchanged; otherwise the planned legs' error is thrown, or the planned legs are built, registered and stored |
| KucoinLedger.LedgerEntry.Bundle | src/models/kucoin/ledger_entry.ts:98-135 | an unknown bizType throws before any leg is built; otherwise the bundle has the bizType's action and status, the memoised legs and the bundle id |
| KucoinLedger.NewLedgerEntry | src/models/kucoin/ledger_entry.ts:30-43 | construction succeeds exactly when the attribute keys are exactly the required ones |
| KucoinLedger.BundleId | src/models/kucoin/ledger_entry.ts:65-80 | specified by `BundleIdSplits` and `BundleIdIdentifiesCorrelation`: a bizType prefix and the correlating id, equal only for the same correlation |
| KucoinLedger.BundleShape | src/models/kucoin/ledger_entry.ts:98-127 | specified by `ShapeTable` and `ShapeAndLegsAgree`: the action and status of each bizType, with unknown ones rejected as by the legs getter |
| KucoinLedger.WithFee | src/models/kucoin/ledger_entry.ts:186-201 | the optional fee leg before the main leg, specified by `FeeLegFirst` |
| KucoinLedger.Exchange | src/models/kucoin/ledger_entry.ts:181-232 | `exchange()`, specified by `FeeLegFirst`, `MainLegOrientation` and `LegsDescribeEntry` |
| KucoinLedger.Income | src/models/kucoin/ledger_entry.ts:247-326 | `rewards()`, `softStakingProfits()` and `stakingProfits()`, specified by `DirectionGuards`, `FeeGuard` and `MainLegOrientation` |
| KucoinLedger.NoLegs | src/models/kucoin/ledger_entry.ts:234-336 | `redemption()`, `staking()` and `transfer()`, specified by `DirectionGuards`, `FeeGuard` and `NoLegsExactly` |
| KucoinLedger.Withdrawal | src/models/kucoin/ledger_entry.ts:338-376 | `withdrawal()`, specified by `DirectionGuards`, `FeeLegFirst` and `MainLegOrientation` |
| KucoinLedger.Deposit | src/models/kucoin/ledger_entry.ts:378-400 | `deposit()`, specified by `DirectionGuards`, `FeeGuard` and `MainLegOrientation` |
| KucoinLedger.ConvertToKcs | src/models/kucoin/ledger_entry.ts:402-432 | `convertToKCS()`, specified by `FeeGuard` and `MainLegOrientation` |
| KucoinLedger.PlannedLegs | src/models/kucoin/ledger_entry.ts:137-179 | the `toAtomicTransactions` switch, specified by `ShapeAndLegsAgree`, `NoLegsExactly`, `LegsDescribeEntry` and `PlannedLegsFixBundleId` |
| CelsiusRecords.Amount | src/models/celsius/record.ts:48-50 | the amount is the absolute value of the coin amount |
| CelsiusRecords.BundleIdInjective | src/models/celsius/record.ts:56-58 | two records share a bundle id only when they share a record id |
| CelsiusRecords.ShapeTable | src/models/celsius/record.ts:68-84 | rewards are complete `getFree` bundles, deposits and withdrawals incomplete transfers, anything else throws |
| CelsiusRecords.ShapeAndLegsAgree | src/models/celsius/record.ts:82-112 | the bundle getter and the legs getter reject exactly the same transaction types |
| CelsiusRecords.OneLegPerRecord | src/models/celsius/record.ts:94-166 | a record yields one leg with its time, currency, absolute amount and bundle id, sent from the account exactly for a withdrawal and to it otherwise |
| CelsiusRecords.CelsiusRecord.constructor | src/models/celsius/record.ts:29-42 | stores the attributes and nickname with no legs computed yet |
| CelsiusRecords.CelsiusRecord.ToAtomicTransactions | src/models/celsius/record.ts:94-115 | a stored result is returned unchanged; otherwise the planned legs' error is thrown, or the planned legs are built, registered and stored |
| CelsiusRecords.CelsiusRecord.Bundle | src/models/celsius/record.ts:68-92 | an unsupported type throws before any leg is built; otherwise the bundle has the type's action and status, the memoised legs and the bundle id |
| CelsiusRecords.NewCelsiusRecord | src/models/celsius/record.ts:29-42 | construction succeeds exactly when the attribute keys are exactly the required ones |
| CelsiusRecords.BundleId | src/models/celsius/record.ts:56-58 | specified by `BundleIdInjective`: equal only for equal record ids |
| CelsiusRecords.BundleShape | src/models/celsius/record.ts:68-84 | specified by `ShapeTable` and `ShapeAndLegsAgree` |
| CelsiusRecords.PlannedLegs | src/models/celsius/record.ts:94-166 | specified by `OneLegPerRecord` and `ShapeAndLegsAgree` |
| BlockstreamTransactions.VinLegs | src/models/bitcoin_blockstream/transaction.ts:86-96 | one outbound leg per input, in input order |
| BlockstreamTransactions.VoutLegs | src/models/bitcoin_blockstream/transaction.ts:108-116 | one inbound leg per output, in output order |
| BlockstreamTransactions.LegsWithTickerCurrency | src/models/bitcoin_blockstream/transaction.ts:86-116 | every leg is in the ticker the mapper looks up |
| BlockstreamTransactions.AsWrittenLegsHaveNoTicker | src/models/bitcoin_blockstream/transaction.ts:89-111 | as written, every leg's currency is the `undefined` ticker, never BTC |
| BlockstreamTransactions.PlannedLegsAreBitcoin | src/models/bitcoin_blockstream/transaction.ts:89-111 | with the lookup corrected, every leg is in BTC |
| BlockstreamTransactions.LegLayout | src/models/bitcoin_blockstream/transaction.ts:77-119 | one leg per input from the controlled address to "Other BTC address" an hour early; then, when there are inputs, the fee leg to "Miner"; then one leg per output from "Other BTC address" to the controlled address at block time; all with the transaction's bundle id |
| BlockstreamTransactions.LegParts | src/models/bitcoin_blockstream/transaction.ts:86-116 | the legs are the input legs, the fee leg when there are inputs, and the output legs, in that order |
| BlockstreamTransactions.InputLegs | src/models/bitcoin_blockstream/transaction.ts:86-96 | the first legs are the inputs', sent from the controlled address an hour before the block time |
| BlockstreamTransactions.FeeLegLayout | src/models/bitcoin_blockstream/transaction.ts:97-107 | with inputs, the leg after them is the fee paid to "Miner" |
| BlockstreamTransactions.OutputLegs | src/models/bitcoin_blockstream/transaction.ts:108-116 | the last legs are the outputs', received by the controlled address at the block time |
| BlockstreamTransactions.LegsShareBundleId | src/models/bitcoin_blockstream/transaction.ts:64-115 | every leg carries `bitcoin-transaction-<txid>` |
| BlockstreamTransactions.VinLegsTotal | src/models/bitcoin_blockstream/transaction.ts:92-94 | the input legs add up to the inputs' value, less the fee taken from the first input |
| BlockstreamTransactions.OutboundAndFeeTotal | src/models/bitcoin_blockstream/transaction.ts:86-107 | with inputs, the input legs plus the fee leg add up to exactly the inputs' value |
| BlockstreamTransactions.OutputAddressesIgnored | src/models/bitcoin_blockstream/transaction.ts:108-116 | every output is credited to the controlled address, whatever address it pays |
| BlockstreamTransactions.BlockstreamTransaction.constructor | src/models/bitcoin_blockstream/transaction.ts:51-58 | stores the attributes and the controlled address with no legs computed yet |
| BlockstreamTransactions.BlockstreamTransaction.ToAtomicTransactions | src/models/bitcoin_blockstream/transaction.ts:77-119 | the first call builds the corrected planned legs (every leg in BTC, see Findings), registering their addresses, and stores them; later calls return the stored legs and change nothing |
| BlockstreamTransactions.BlockstreamTransaction.Bundle | src/models/bitcoin_blockstream/transaction.ts:68-75 | an incomplete transfer bundle of the memoised corrected legs (in BTC, see Findings) with a non-zero amount |
| BlockstreamTransactions.BundleIdIffSameTxid | src/models/bitcoin_blockstream/transaction.ts:64-66 | two transactions share a bundle id exactly when their transaction ids are equal |
| BlockstreamTransactions.BundleId | src/models/bitcoin_blockstream/transaction.ts:64-66 | specified by `BundleIdIffSameTxid` and `LegsShareBundleId` |
| BlockstreamTransactions.PlannedLegs | src/models/bitcoin_blockstream/transaction.ts:77-119 | the corrected legs, specified by `PlannedLegsAreBitcoin`, `LegLayout`, `LegParts`, `VinLegsTotal` and `OutboundAndFeeTotal` |
| AlgoExplorerTransactions.ToDecimal | src/models/algorand/asset.ts:20-22 | an asset amount scaled back by the asset's decimals gives the whole base-unit amount |
| AlgoExplorerTransactions.Algos | src/models/algorand_algo_explorer/transaction.ts:60-66 | an amount in algos times 10^6 is the whole number of microalgos |
| AlgoExplorerTransactions.Receiver | src/models/algorand_algo_explorer/transaction.ts:53 | the payment's receiver when it is non-empty, else the asset transfer's; absent exactly when neither is a non-empty string |
| AlgoExplorerTransactions.ToAddress | src/models/algorand_algo_explorer/transaction.ts:52-58 | throws exactly when no receiver is found, and otherwise returns the receiver lowercased |
| AlgoExplorerTransactions.Currency | src/models/algorand_algo_explorer/transaction.ts:79-92 | a payment is in ALGO; an asset transfer is in the asset's name, or throws when the asset is unknown; with neither, it throws |
| AlgoExplorerTransactions.Amount | src/models/algorand_algo_explorer/transaction.ts:64-77 | a payment in algos, an asset transfer in the asset's decimals, with the same errors as the currency except for the last one's name |
| AlgoExplorerTransactions.AmountAfterCurrency | src/models/algorand_algo_explorer/transaction.ts:64-92 | the amount getter succeeds whenever the currency getter does, and fails with the matching error otherwise |
| AlgoExplorerTransactions.PlannedLegsErrors | src/models/algorand_algo_explorer/transaction.ts:116-139 | building the legs throws exactly for a value-moving type lacking a currency or a receiver, the currency's error first |
| AlgoExplorerTransactions.PlannedLegsLayout | src/models/algorand_algo_explorer/transaction.ts:116-157 | two legs for `pay` and `axfer`, one otherwise; the last is always the ALGO fee from the sender to a new "Miner" void; all share the bundle id and the round time |
| AlgoExplorerTransactions.ValueLeg | src/models/algorand_algo_explorer/transaction.ts:121-139 | the value leg goes from the lowercased sender to the lowercased receiver in the transaction's currency and amount |
| AlgoExplorerTransactions.Status | src/models/algorand_algo_explorer/transaction.ts:102-107 | the bundle is complete exactly when sender and receiver coincide up to case; it throws when there is no receiver |
| AlgoExplorerTransactions.AlgoExplorerTransaction.constructor | src/models/algorand_algo_explorer/transaction.ts:35-42 | stores the attributes and the asset map with no legs computed yet |
| AlgoExplorerTransactions.AlgoExplorerTransaction.ToAtomicTransactions | src/models/algorand_algo_explorer/transaction.ts:116-157 | a stored result is returned unchanged; otherwise the planned legs' error is thrown, or the planned legs are built, registered and stored |
| AlgoExplorerTransactions.AlgoExplorerTransaction.Bundle | src/models/algorand_algo_explorer/transaction.ts:102-114 | a missing receiver throws before any leg is built; otherwise a transfer bundle with the status above, the memoised legs and the bundle id |
| AlgoExplorerTransactions.BundleIdIffSameId | src/models/algorand_algo_explorer/transaction.ts:98-100 | two transactions share a bundle id exactly when their raw ids are equal: case counts |
| AlgoExplorerTransactions.BundleId | src/models/algorand_algo_explorer/transaction.ts:98-100 | specified by `BundleIdIffSameId` |
| AlgoExplorerTransactions.PlannedLegs | src/models/algorand_algo_explorer/transaction.ts:116-157 | specified by `PlannedLegsErrors`, `PlannedLegsLayout` and `ValueLeg` |
| CoinbaseTransfers.NewTransfer | src/models/coinbase/transfer.ts:45-57 | construction succeeds exactly when the attribute keys are exactly the required ones |
| CoinbaseTransfers.Amount | src/models/coinbase/transfer.ts:75-77 | `parseInt` keeps the whole part of the amount, truncating toward zero: a whole number, at most a non-negative amount and within one below it, at least a negative amount and within one above it |
| CoinbaseTransfers.Guarded | src/models/coinbase/transfer.ts:98-113 | the guards shared by the code as written and the corrected plan, specified by `Guards` |
| CoinbaseTransfers.Guards | src/models/coinbase/transfer.ts:98-117 | for the code as written and for the corrected plan alike, the guards in order: neither-or-both completed and canceled throws; canceled gives no leg; an unknown type throws; an unknown account throws; a deposit throws its fee error exactly when it has a fee |
| CoinbaseTransfers.AsWrittenVoidThrows | src/models/coinbase/transfer.ts:98-156 | as written, the noteless `new VoidAddress()` throws exactly for a completed withdrawal and for a completed fee-less deposit that is not a payout, once the guards pass; the only legs ever built are a payout deposit's one leg from the bank account |
| CoinbaseTransfers.CorrectionOnlyAtVoid | src/models/coinbase/transfer.ts:115-156 | the corrected plan agrees with the code as written wherever that does not reach the noteless void address, and never throws there itself |
| CoinbaseTransfers.OneLegWhenCompleted | src/models/coinbase/transfer.ts:98-156 | in the corrected plan, a completed transfer gives one leg in the account's currency, with the whole amount and the creation time, and no bundle id; a canceled one gives none |
| CoinbaseTransfers.LegDirection | src/models/coinbase/transfer.ts:115-156 | in the corrected plan, a deposit goes to the Coinbase account, from a bank account when it was a payout and from a fresh void address noted "Unknown chain" otherwise; a withdrawal goes from the account to that void address |
| CoinbaseTransfers.DepositMirrorsWithdraw | src/models/coinbase/transfer.ts:115-156 | in the corrected plan, a fee-less non-payout deposit is the withdrawal leg reversed: same amount and currency, ends swapped |
| CoinbaseTransfers.PlannedLegs | src/models/coinbase/transfer.ts:98-156 | `toAtomicTransactions` as written, specified by `Guards` and `AsWrittenVoidThrows` |
| CoinbaseTransfers.CorrectedPlannedLegs | src/models/coinbase/transfer.ts:98-156 | `toAtomicTransactions` with a noted void address, specified by `Guards`, `CorrectionOnlyAtVoid`, `OneLegWhenCompleted`, `LegDirection` and `DepositMirrorsWithdraw` |
| CoinbaseConversions.NewConversion | src/models/coinbase/conversion.ts:20-32 | construction succeeds exactly when the attribute keys are exactly the required ones |
| CoinbaseConversions.BundleIdInjective | src/models/coinbase/conversion.ts:46-48 | two conversions share a bundle id only when they share an id |
| CoinbaseConversions.AsWrittenEveryConversionThrows | src/models/coinbase/conversion.ts:54-81 | as written, every conversion throws at the noteless `new VoidAddress()` of its first leg, so none yields a leg |
| CoinbaseConversions.TwoMirroredLegs | src/models/coinbase/conversion.ts:54-81 | the corrected conversion is two legs: USDC into the account from a void address noted "Coinbase Inc" and USD out of the account to it, with the same amount, time, `conversion` action and bundle id |
| CoinbaseConversions.BundleId | src/models/coinbase/conversion.ts:46-48 | specified by `BundleIdInjective` |
| CoinbaseConversions.PlannedLegs | src/models/coinbase/conversion.ts:54-81 | `toAtomicTransactions` as written, specified by `AsWrittenEveryConversionThrows` |
| CoinbaseConversions.CorrectedPlannedLegs | src/models/coinbase/conversion.ts:54-81 | `toAtomicTransactions` with a noted void address, specified by `TwoMirroredLegs` |
| Configs.Lowered | src/config.ts:36-46 | the spread-and-lowercase `map` fails exactly when a field to lowercase is missing, naming the first such field in order |
| Configs.LoweredValues | src/config.ts:36-46 | a lowered account keeps every key; the named fields hold the lowercase of their old text and all other fields are unchanged |
| Configs.LoweredAccount | src/config.ts:36-46 | a lowered account is the original account with exactly its named fields lowercased |
| Configs.NormalizeAll | src/config.ts:34-46 | the `map` over a list succeeds exactly when every account can be lowered, and then gives one lowered account per input, in order |
| Configs.NormalizeAllFirstError | src/config.ts:34-46 | a failing `map` reports the error of the first account that cannot be lowered, all earlier ones having succeeded |
| Configs.NormalizedAccounts | src/config.ts:34-46 | a successful `map` keeps the length and lowers each input account in place |
| Configs.AccountCheck | src/config.ts:48-63 | an account passes exactly when its name field is supported and no value is empty; an unsupported name is reported before an empty value |
| Configs.FirstFailure | src/config.ts:48-63 | the `forEach` over a list throws nothing exactly when every account passes |
| Configs.FirstFailureIsFirst | src/config.ts:48-63 | the error thrown is that of the first failing account, every earlier account having passed |
| Configs.Duplicated | src/config.ts:75-77 | a nickname is reported exactly when it occurs more than once |
| Configs.CountNicknames | src/config.ts:64-74 | the `reduce` counts each nickname that occurs, exactly as often as it occurs, and no other key |
| Configs.FilterIdempotent | src/config.ts:26-41 | dropping empty objects a second time changes nothing |
| Configs.EmptyAccountsIgnored | src/config.ts:33-81 | the constructor gives the same result, list or error, when the empty objects are removed beforehand |
| Configs.AcceptedAccounts | src/config.ts:33-81 | an accepted configuration holds one lowered account per non-empty input account in order, each with a supported name and no empty value |
| Configs.AcceptedNicknamesUnique | src/config.ts:64-80 | in an accepted configuration no two accounts, decentralized or centralized, share a nickname |
| Configs.DuplicatesReported | src/config.ts:64-80 | once the lists are lowered and checked, the constructor throws exactly when some nickname repeats, and reports exactly the repeated ones |
| Configs.Config.constructor | src/config.ts:29-31 | the configuration stores the two account lists it is given |
| Configs.NewConfig | src/config.ts:33-81 | the constructor throws the first lowering error, then the first check failure (centralized before decentralized), then the duplicated nicknames; otherwise it stores the lowered non-empty lists |
| Configs.NewConfigSpec | src/config.ts:33-81 | the constructor on values, specified by `EmptyAccountsIgnored`, `AcceptedAccounts`, `AcceptedNicknamesUnique` and `DuplicatesReported` |
| Coingecko.NatToStringValue | src/api_clients/coingecko.ts:7-13 | the decimal text of a natural number reads back as the number |
| Coingecko.PadWithOneZero | src/api_clients/coingecko.ts:7 | numbers from ten on are written as they are; single digits get one leading zero |
| Coingecko.PadTwoDigits | src/api_clients/coingecko.ts:7 | a number from 0 to 99 becomes two digits that read back as the number |
| Coingecko.ConvertDateRoundTrip | src/api_clients/coingecko.ts:9-13 | a real calendar date becomes `DD-MM-YYYY` text whose fields read back as the day, the month counted from 1 and the year |
| Coingecko.SymbolMapKeys | src/api_clients/coingecko.ts:18-24 | a symbol is in the table exactly when some listed coin has it |
| Coingecko.SymbolMapLastWins | src/api_clients/coingecko.ts:18-24 | a symbol maps to the id of the last listed coin with that symbol |
| Coingecko.CoinList.constructor | src/api_clients/coingecko.ts:18-24 | the loop builds the table the `reduce` defines, entry by entry |
| Coingecko.CoinList.GetId | src/api_clients/coingecko.ts:26-30 | the exact symbol is tried, then its lowercase, then its uppercase; the result is truthy exactly when one of the three lookups is |
| Coingecko.LowercaseSymbolFound | src/api_clients/coingecko.ts:26-30 | a ticker listed only under its lowercase symbol finds the last coin listed with that symbol |
| Coingecko.Store | src/api_clients/coingecko.ts:90-92 | storing a price adds the coin id and the key and records the price under them, keeping every other key |
| Coingecko.StoreThenHit | src/api_clients/coingecko.ts:76-92 | a stored non-zero price is a cache hit afterwards, a stored zero is not, and every other cached price is unchanged |
| Coingecko.CoingeckoClient.constructor | src/api_clients/coingecko.ts:40-45 | the client keeps the coin list and the cache it is given |
| Coingecko.CoingeckoClient.GetPrice | src/api_clients/coingecko.ts:62-95 | an unlisted ticker throws and leaves the cache alone; a cache hit is returned as it is; otherwise the history price is returned and stored under the coin id and the instant's key |
| Coingecko.ConvertDate | src/api_clients/coingecko.ts:7-13 | specified by `ConvertDateRoundTrip` |
| Coingecko.SymbolMap | src/api_clients/coingecko.ts:18-24 | specified by `SymbolMapKeys` and `SymbolMapLastWins` |
| Coingecko.CachedPrice | src/api_clients/coingecko.ts:76-79 | the cache lookup, specified by `StoreThenHit`: a stored non-zero price is a hit and a stored zero is not |

## Left out

- Fetching (HTTP clients, rate limiting, pagination), `async` control flow and console logging are not modelled. The records a fetch would return are inputs.
- The file writes of `consolidateBundles` (src/aggregators/bundle_consolidator.ts:50-56) and every other file-system access are left out. They have no effect on the returned bundles.
- Floating-point rounding, `NaN` and `Infinity` are not modelled; amounts are exact reals. A division by zero, which gives `Infinity` or `NaN` in the source, is modelled as 0.
- Parsing of date strings and time zones is not modelled. An instant is a number of milliseconds; the local calendar date that `Date` reports is a parameter of the price client.
- JavaScript `Set`s of bundles are modelled as sequences. Adding the same bundle object twice collapses in the source but not in the model.
- Every mapper's model computes its planned legs, with any error, before it registers an address. The source may register some addresses and then throw: the AlgoExplorer sender before a later check, or the KuCoin platform address before `this.amount` rejects the record (src/models/kucoin/ledger_entry.ts:192-197). Registry contents after a thrown error are therefore not modelled.
- A KuCoin `context` that `JSON.parse` rejects (src/models/kucoin/ledger_entry.ts:87) is not modelled: the context is taken as already parsed, or absent.
- JavaScript objects used as dictionaries inherit `Object.prototype` keys. A symbol such as `constructor` finds an inherited, truthy entry in the CoinGecko `symbolToMap` (src/api_clients/coingecko.ts:27); the model's maps have only the keys put in them.
- Strings.ToLower, Strings.ToUpper: map ASCII letters only and keep the length. JavaScript's Unicode case mapping of other letters, which can also change the length, is not modelled. This touches address normalisation and validation, the lowering of the configuration, the CoinGecko id lookup and the upper-casing of excluded currencies.
- `SupportedPlatform` has no Celsius member, so the Celsius mapper's bundle ids read `undefined-record_id-<id>` and its platform addresses print `undefined-<nickname>` (src/models/celsius/record.ts:57,126). The model follows the code: its `Celsius` platform prints as `undefined`.
- BlockstreamTransactions.BlockstreamTransaction.ToAtomicTransactions: realises the corrected legs, in BTC, not the legs of the code as written, whose currency is `undefined` (src/models/bitcoin_blockstream/transaction.ts:89-111). The as-written legs are modelled by `AsWrittenLegs` and the Findings table.
- BlockstreamTransactions.BlockstreamTransaction.Bundle: bundles the corrected BTC legs, for the same reason.
- Private constructors that the source calls with `new` are modelled only for their logic: a fresh, unregistered instance. A call that leaves out the constructor's argument is modelled as the `TypeError` it throws (see Findings).
- CoinbaseTransfers.CorrectedPlannedLegs, CoinbaseConversions.CorrectedPlannedLegs: the notes "Unknown chain" and "Coinbase Inc" of the corrected void addresses are taken from the source's comments; the code gives no note.
- Every leg's currency is a ticker string. The source mixes two representations: KuCoin, Celsius and Blockstream legs hold `Currency.getInstance(...)` objects (src/models/celsius/record.ts:122-156, src/models/bitcoin_blockstream/transaction.ts:89-111), while Coinbase, Algorand, AlgoExplorer and Etherscan internal legs hold plain strings (src/models/atomic_transaction.ts:8 declares `currency: string`). The bundle and consolidator code reads `.ticker` and `.isFiat` on whichever it is given (src/models/transaction_bundle.ts:276-291, src/aggregators/bundle_consolidator.ts:71) and compares currencies with `===` (src/aggregators/bundle_consolidator.ts:120-129). The model treats both as the ticker, so it differs where the representations meet. A string leg's `.ticker` is `undefined`, so the source never excludes an AlgoExplorer ALGO bundle as a shitcoin, while the model does. A KuCoin ALGO withdrawal (an object) and an AlgoExplorer ALGO deposit (a string) never match in the source, while the model can merge them.
- `isFeePayment` and `PAY_FEE` are read by the bundle and imported by the mappers, but the source's atomic transaction defines neither. The model defines `IsFeePayment` as an action equal to its own `PAY_FEE` label.
- `getPrice` on a currency and `getCost` on an atomic transaction are called by the bundle (src/models/transaction_bundle.ts:385-566) but defined by neither the source's currency nor its atomic transaction; the CoinGecko client has a `getPrice` of its own. The model takes the market price of each inbound amount and the fee's cost as parameters of the taxable-event functions and methods.
- The Algorand asset's name and decimals (src/models/algorand/asset.ts:24-26 and the asset fetch) are taken as given fields of the asset.
- `groupBy`, `partition` and the heap are not among the selected source files (src/utils.ts exports only `fetchJson`). The model gives them the contracts their callers rely on.
- The Binance Smart Chain `parseTransactions` is a no-op in the source and has no model.
- Configs.DuplicatesReported: states the reported nicknames as a set. It does not model the order in which the error message lists them (the insertion order of `Object.entries`, with integer-like keys first) or the message text.
- A nickname `__proto__`, values of JSON types other than strings, and the `TypeError` of a missing field in a configuration are not distinguished: a missing or non-text field to lowercase is one error.
- `Config.parse` (src/config.ts:83-113), which reads or creates `config.json`, is left out.
- The CoinGecko client's fetch of the coin list (the list is a constructor parameter), the loading and writing of the cache file, and a fetched price of `undefined` are left out.
- A payment transaction of `null` in the Algorand record, which throws a `TypeError` in the source, is not modelled.
- The commented-out transfer between master trackers has no model.
- KuCoin exchange and withdrawal fee legs carry the record's `amount`, not its fee (src/models/kucoin/ledger_entry.ts:197,354). The model follows the code.
- The Etherscan internal transaction passes `transactionHash` where the leg expects `bundleId`, so its legs carry no bundle id (the model's `MissingBundleId`).
- The AlgoExplorer bundle id is built from the raw transaction id, not the lowercased one. The model follows the code.

## Findings

| source | as written | input that shows it | evidently intended | confidence | as-written member | corrected member |
|---|---|---|---|---|---|---|
| src/currencies.ts:9-13 | `chainToCoinMap` has no Bitcoin entry, yet the Blockstream mapper looks up `chainToCoinMap[SupportedBlockchain.Bitcoin]` for every leg (src/models/bitcoin_blockstream/transaction.ts:89,101,111) | any Blockstream transaction with one input or output: each of its legs gets the currency `undefined` | every Bitcoin leg is in BTC | not executed | BlockstreamTransactions.AsWrittenLegsHaveNoTicker | BlockstreamTransactions.PlannedLegsAreBitcoin |
| src/models/coinbase/transfer.ts:115-156 | `new VoidAddress()` is called with no argument (transfer.ts:123 and :151), but the constructor destructures `{ note }` from its argument (src/addresses/void_address.ts:11), which throws a `TypeError` | any completed withdrawal with a known account, or a completed fee-less deposit without `coinbase_payout_at` | a void address standing for the unknown chain, as the comments say | not executed | CoinbaseTransfers.AsWrittenVoidThrows | CoinbaseTransfers.CorrectedPlannedLegs |
| src/models/coinbase/conversion.ts:54-81 | `new VoidAddress()` is called with no argument (conversion.ts:60 and :76), which throws a `TypeError` in the constructor (src/addresses/void_address.ts:11) | any conversion | two legs between the account and a void address standing for Coinbase Inc, as the comments say | not executed | CoinbaseConversions.AsWrittenEveryConversionThrows | CoinbaseConversions.CorrectedPlannedLegs |
