# Vanguard portfolio rebalance — a verified Dafny model

This project models the core of a portfolio-rebalancing tool for a Vanguard
brokerage account, a Roth IRA and a traditional IRA. The tool:

- reads an account export into per-account **share-value records**. A record has
  13 slots: nine funds (VXUS, BNDX, BND, VWO, VO, VB, VTC, VV, VTIP), the VMFXX
  cash fund, one slot shared by every other ticker, and two slots for stock and
  bonds held outside Vanguard;
- computes a **target allocation**, either a glide path towards a retirement year
  or a flat stock percentage, split into nine fund percentages;
- **pools the retirement accounts**. It fills the Roth account riskiest fund first
  and a pooled brokerage account safest fund first, and gives the traditional IRA
  the rest. It then prices the trades that take each account to its target;
- **replays the transaction ledger** back to December 31 of the previous year to
  value the traditional IRA. That value drives the required-minimum-distribution
  line of the app.

Modules, one per source file, plus two small support modules:

- `Wrappers`, `Errors` (`wrappers.dfy`): `Option`, `Result`, and the error
  conditions of the engine.
- `Asset` (`asset.dfy`): allocations, the glide path and the nine-way split.
- `Holdings` (`holdings.dfy`):
  - ticker symbols and the `ShareValues` record with its field-wise algebra;
  - pooled targets;
  - the `StockInfo` builder and the `VanguardRebalance` result, as classes.
- `Ledger` (`ledger.dfy`): transaction kinds, dates, the ledger replay specified
  by functions, and the `VanguardHoldings` store as a class. Its replay method
  runs a loop proved against those functions.
- `Calc` (`calc.dfy`): the risk order, the risk walk (a loop), the brokerage and
  retirement calculations, `ToBuy`, and the minimum-distribution lookup.
- `App` (`app.dfy`): the app's Create/Delete profile handlers and the
  distribution-table handler, as a class over the profile maps.

Representation choices:

- Money and percentages are `real`. Account numbers, ages and years are `nat`.
- A date is a day number counted as the date library counts days from the
  Common Era; December 31 of year `y` is day `365*y + y/4 - y/100 + y/400`.
- The source's `u32`/`i32` conversions are written out (`I32Of`). Where they would
  abort the program, they become preconditions (`YearArgOk`).
- Wall-clock time, the network quote service and file reading are parameters.
  `thisYear` is the current year, `eoyQuotes` the December 31 prices, and the
  distribution table is a `map<nat, real>`.

## Model

| member | source | states |
|---|---|---|
| Asset.NewAllocations | src/asset.rs:30-36 | the default allocation is 60/40/0 and sums to 100 |
| Asset.GlidePath | src/asset.rs:49-63 | every point of the four-piece schedule sums to 100; stock and bond lie in [0, 100] and inflation-protected in [0, 18] |
| Asset.Retirement | src/asset.rs:39-69 | succeeds exactly for years in [2000, 3000), then with the glide-path point for year − current year; otherwise fails with the year-out-of-range error |
| Asset.Custom | src/asset.rs:73-90 | succeeds exactly when the three parts sum to 100, keeping them unchanged; otherwise fails with the sum error |
| Asset.NewCustom | src/asset.rs:8-19 | succeeds exactly when the parts sum into [99.9, 100.1), so every valid allocation succeeds; large = mid = small = international total (2/9 of stock each), emerging is half of that, the three bond funds share bonds equally, inflation-protected passes through |
| Asset.NewSubAllocations | src/asset.rs:141-144 | the default split succeeds with 40/3 per US stock fund, 20/3 emerging, 40/3 per bond fund |
| Asset.RetirementSplits | src/asset.rs:39-69 | every successful glide-path allocation splits into nine percentages summing to exactly 100 |
| Asset.GlidePathExamples | src/asset.rs:52-63 | 10 years out gives 67.5/32.5/0, 0 years gives 46/45/9, −6 gives 29/53/18, 30 gives 90/10/0 |
| Asset.GlidePathStockMonotone | src/asset.rs:52-58 | from 5 years after to 30 years before retirement, stock never decreases with distance |
| Asset.GlidePathJoins | src/asset.rs:52-58 | the two linear pieces meet at 60/40/0; 29 years out gives 96% stock, above the 90% from 30 years on |
| Holdings.NewSymbol | src/holdings.rs:63-78 | the symbol's ticker is the input; known tickers give their fund, "" gives Empty, anything else gives Other |
| Holdings.SymbolRoundTrip | src/holdings.rs:63-78 | parsing a symbol's ticker gives the symbol back |
| Holdings.SlotOfSharing | src/holdings.rs:679-694 | two symbols share a slot exactly when equal or both Other; no symbol writes an outside slot |
| Holdings.Set | src/holdings.rs:679-694 | storing into a slot changes that slot only |
| Holdings.Zero | src/holdings.rs:429-445 | the empty record is 0 in every slot |
| Holdings.NewQuote | src/holdings.rs:477-493 | the quote record starts at 1 in every slot |
| Holdings.NewQuoteNonZero | src/holdings.rs:477-493 | the starting quote record never divides by zero |
| Holdings.ValueAdded | src/holdings.rs:447-463 | true exactly when some slot other than the shared Other slot differs from the default |
| Holdings.ValueAddedDefaults | src/holdings.rs:447-463 | an all-default record reports nothing added, whatever its Other slot holds |
| Holdings.StockValue | src/holdings.rs:751-766 | reads the symbol's slot |
| Holdings.AddStockValue | src/holdings.rs:679-694 | afterwards the symbol reads the new value and every other slot is unchanged |
| Holdings.SubtractStockValue | src/holdings.rs:716-731 | lowers only the symbol's slot, by the amount |
| Holdings.AddOutsideStockValue | src/holdings.rs:698-700 | sets the outside-stock slot only |
| Holdings.AddOutsideBondValue | src/holdings.rs:708-710 | sets the outside-bond slot only |
| Holdings.AddStockinfoValue | src/holdings.rs:635-659 | a known fund gets the picked field of the info; Other adds a value or sets a quote/share count of 1; no other slot changes |
| Holdings.ValueSlotsAreTheTotalSlots | src/holdings.rs:783-795 | the listed value slots are exactly the slots the total counts |
| Holdings.TotalValueIsSlotSum | src/holdings.rs:783-795 | the total is the sum over the nine funds, VMFXX and Other, without the outside slots |
| Holdings.TotalValueExample | src/holdings.rs:775-780 | 5000 + 2000 + 4000 stored in three funds total 11000 |
| Holdings.TotalValueAfterStore | src/holdings.rs:679-694 | storing x replaces the slot's old value in the total by x; subtracting x lowers the total by x |
| Holdings.PercentStockBondInfl | src/holdings.rs:800-811 | undefined (None) exactly when the base is 0; otherwise each percentage times the base is 100 × the stock held, the bonds held and VTIP respectively, and the three sum to 100 |
| Holdings.Add | src/holdings.rs:819-839 | field-wise sum over all 13 slots |
| Holdings.Sub | src/holdings.rs:841-861 | field-wise difference over all 13 slots |
| Holdings.Mul | src/holdings.rs:885-905 | field-wise product over all 13 slots |
| Holdings.Div | src/holdings.rs:863-883 | field-wise quotient over all 13 slots, for a divisor with no zero slot |
| Holdings.AddSubCancel | src/holdings.rs:819-861 | (a + b) − b == a |
| Holdings.MulDivCancel | src/holdings.rs:863-905 | (a × b) ÷ b == a when b has no zero slot |
| Holdings.QuoteIdentity | src/holdings.rs:477-493 | dividing or multiplying by the starting quote record is the identity |
| Holdings.TotalValueLinear | src/holdings.rs:783-861 | the total of a sum or difference is the sum or difference of the totals |
| Holdings.SameRecordZeroDelta | src/holdings.rs:841-883 | (a − a) ÷ q is the zero record |
| Holdings.NewTarget | src/holdings.rs:556-605 | VMFXX and Other are 0, outside slots are the declared outside amounts |
| Holdings.NewTargetWorth | src/holdings.rs:556-605 | the target is worth grand total × split sum / 100 less the outside amounts, so for a split summing to 100 it is worth the Vanguard value |
| Holdings.NewTargetSplit | src/holdings.rs:556-605 | over the grand total, target stock is the split's stock part, bonds its bond part, VTIP its inflation part |
| Holdings.NewTargetWithoutOutside | src/holdings.rs:556-605 | with no outside amounts each fund is total × its percentage / 100 |
| Holdings.StockInfo.constructor | src/holdings.rs:175-200 | all fields default, no flag set, not finished |
| Holdings.StockInfo.AddAccount | src/holdings.rs:202-218 | stores the account number and sets its flag |
| Holdings.StockInfo.AddSymbol | src/holdings.rs:220-237 | stores the symbol and sets its flag |
| Holdings.StockInfo.AddSharePrice | src/holdings.rs:239-257 | stores the share price and sets its flag |
| Holdings.StockInfo.AddShares | src/holdings.rs:259-277 | stores the share count and sets its flag |
| Holdings.StockInfo.AddTotalValue | src/holdings.rs:279-301 | stores the total value and sets its flag |
| Holdings.CompleteRow | src/holdings.rs:291-313 | a fresh row given account, symbol, price, total value and share count in the documented order is finished and holds exactly those values |
| Holdings.VanguardRebalance.constructor | src/holdings.rs:1232-1239 | three default account records and a zero retirement target |
| Holdings.VanguardRebalance.AddAccountHoldings | src/holdings.rs:1262-1268 | the record goes to its account kind; the other two are kept |
| Holdings.VanguardRebalance.AddRetirementTarget | src/holdings.rs:1270-1272 | stores the pooled target |
| Ledger.NewTransactionType | src/holdings.rs:1332-1347 | the kind's label is the input; unknown labels give Other |
| Ledger.TransactionTypeRoundTrip | src/holdings.rs:1332-1347 | parsing a kind's label gives the kind back |
| Ledger.PassingCountPositive | src/holdings.rs:1044-1047 | at least one row counted exactly when some row passes the date-and-account test |
| Ledger.HasOlderExists | src/holdings.rs:1044-1067 | history is long enough exactly when some row fails that test |
| Ledger.ReplaySlots | src/holdings.rs:1047-1064 | the replay lowers each slot by the passing rows' amounts: net amount for VMFXX, shares for other non-empty symbols |
| Ledger.EoySnapshot | src/holdings.rs:1028-1076 | a snapshot exists exactly when the boundary date exists and some row fails and some row passes the test; each slot is then the current slot minus what the passing rows removed |
| Ledger.DistributionsAfterEffect | src/holdings.rs:1056-1063 | only the account's entry changes, lowered by the net amounts of the distribution rows |
| Ledger.ReplayTwiceDoublesDistributions | src/holdings.rs:1056-1063 | replaying twice takes the distributions off twice |
| Ledger.EoyValueOf | src/holdings.rs:1008-1024 | a value exactly when a snapshot exists: the snapshot priced at the end-of-year quotes |
| Ledger.VanguardHoldings.New | src/holdings.rs:983-991 | an empty store over the given quotes |
| Ledger.VanguardHoldings.Parsed | src/holdings.rs:961-968 | a store holding the read accounts, quotes and ledger, with no distributions |
| Ledger.VanguardHoldings.Distributions | src/holdings.rs:999-1004 | the recorded amount, 0 for an account with none |
| Ledger.VanguardHoldings.EoyTraditionalHoldings | src/holdings.rs:1028-1076 | the loop returns the snapshot and takes the distribution rows off the account's entry |
| Ledger.VanguardHoldings.EoyValue | src/holdings.rs:1008-1024 | as written: replays the account's dollar values, then prices them at the quotes |
| Ledger.VanguardHoldings.EoyValueByShares | src/holdings.rs:1008-1024 | corrected: replays the account's share counts, with the unsupported bucket at its dollar value, then prices them at year-end quotes |
| Ledger.ReplayStart | src/holdings.rs:640-660 | the share counts of every slot but the unsupported bucket, which keeps its dollar value (its share record only flags a holding with 1) |
| Ledger.YearEndQuotesBuilt | src/holdings.rs:517-533 | the all-one quote record is a year-end quote record and storing a fund's quote keeps cash, the unsupported bucket and the outside slots at 1 |
| Ledger.ReplayBuyScenario | src/holdings.rs:1047-1064 | 20 VV shares with a later buy of 5 give 15 at the boundary |
| Ledger.AllRecentGivesNoSnapshot | src/holdings.rs:1065-1070 | a ledger with only recent rows of the account gives no snapshot |
| Ledger.OtherAccountRowCountsAsHistory | src/holdings.rs:1044-1067 | an old-looking row may come from another account and still makes history long enough |
| Ledger.QuietLedgerSnapshot | src/holdings.rs:1028-1076 | a ledger whose passing rows carry no symbol gives the current holdings back |
| Ledger.EoyValueUnitsMismatch | src/holdings.rs:1008-1024 | an account worth 1000 in 10 BND at 100 is valued at 100000 by the as-written replay |
| Ledger.EoyValueBySharesConsistent | src/holdings.rs:1008-1024 | when no passing row moves a fund and each fund's shares times its quote are its dollar value, the corrected replay gives back the account's dollar total, unsupported bucket included |
| Ledger.PricedStartIsValue | src/holdings.rs:1008-1024 | the replay's starting record priced at year-end quotes is worth the account's dollar total |
| Ledger.NoSymbolRowsRemoveNothing | src/holdings.rs:1047-1064 | rows without a symbol remove nothing from any slot |
| Ledger.EoyValueBySharesExample | src/holdings.rs:1008-1024 | the same account is valued at 1000 by the share-count replay |
| Ledger.EoyValueBySharesOtherExample | src/holdings.rs:1008-1024 | 5000 dollars of an unsupported ticker (share record 1) are valued at 5000 by the corrected replay |
| Calc.ReverseRiskOrder | src/calc.rs:304-306 | the brokerage walk's order is the risk order backwards |
| Calc.RiskOrders | src/calc.rs:15-25 | both orders list nine distinct funds, and VMFXX is not among them |
| Calc.RiskWalk | src/calc.rs:277-289 | the loop gives the result of the walk specification |
| Calc.WalkTouchesOnlyOrder | src/calc.rs:277-289 | the walk writes only the order's funds |
| Calc.WalkConserves | src/calc.rs:277-289 | what the walk places plus what it leaves is what it was given |
| Calc.WalkLeftNonnegative | src/calc.rs:277-289 | the walk never leaves a negative amount |
| Calc.WalkLeftover | src/calc.rs:277-289 | the walk leaves exactly the excess over the order's combined target, and 0 when it fits |
| Calc.WalkFillsInOrder | src/calc.rs:277-289 | greedy: a fund receives anything only when every earlier fund holds its whole pooled target |
| Calc.WithinOnePercentOfItself | src/calc.rs:290-296 | an account matching its target exactly passes the 1% check exactly when positive |
| Calc.WithCash | src/calc.rs:214-219 | only VMFXX changes, by the cash added, and the total grows by that cash |
| Calc.Account | src/calc.rs:142-143 | keeps current and target; shares × quote is target − current in every fund |
| Calc.AccountAtTargetTradesNothing | src/calc.rs:142-143 | an account at its target needs no trade |
| Calc.AccountExample | src/calc.rs:142-143 | 1000 in BND at target and quoted at 100 needs no BND trade |
| Calc.BrokerageCurrent | src/calc.rs:121-126 | VMFXX has the cash added, outside slots hold the declared amounts, other funds keep their values |
| Calc.BrokerageCalc | src/calc.rs:111-149 | always succeeds, with the adjusted holdings as current, the flat-percentage target and trades to reach it |
| Calc.BrokerageTargetAllocation | src/calc.rs:127-141 | the target is worth the adjusted account; over the grand total it holds the requested stock share, the rest in bonds and no VTIP |
| Calc.BrokerageTargetSplit | src/calc.rs:127-141 | with a nonzero grand total the target's stock/bond/inflation split is p / 100 − p / 0 |
| Calc.RetirementPlan | src/calc.rs:195-196 | a year outside [2000, 3000) fails with that error; otherwise the glide-path split sums to 100 and the plan is `PlanFor` it |
| Calc.PlanFor | src/calc.rs:214-353 | an account has a record exactly when it takes part, and the overall target exactly when any does; each record is the account with cash added and trades to its target; errors come only from a taking-part Roth or brokerage account |
| Calc.RetirementCalc | src/calc.rs:161-274 | the step-by-step pooling computes `RetirementPlan` |
| Calc.PlaceAccounts | src/calc.rs:276-353 | the two walk loops, checks and remainder compute `PlanFor` |
| Calc.OverallWorth | src/calc.rs:260-274 | the pooled target is worth the sum of the taking-part accounts with cash |
| Calc.PlanConserves | src/calc.rs:276-345 | every account's target is worth exactly its current holdings |
| Calc.PlanPartition | src/calc.rs:276-336 | with the traditional IRA taking part, the three targets add up to the pooled target slot by slot |
| Calc.RothLeftover | src/calc.rs:277-289 | with a nonnegative pooled target, the leftover-Roth-cash error occurs exactly when the Roth account exceeds the nine funds' pooled target |
| Calc.MismatchOnlyWhenNotPositive | src/calc.rs:290-296 | the 1% errors occur only for an account whose value with cash is not positive |
| Calc.PlanFillsByRisk | src/calc.rs:277-316 | the Roth account fills riskiest first and a pooled brokerage account safest first, greedily |
| Calc.OverallIsNewTarget | src/calc.rs:260-274 | when any account takes part, the pooled target is the sub-allocation spread over the pooled value and pooled outside amounts |
| Calc.TargetFollowsAllocation | src/calc.rs:260-274 | a target built from a valid allocation (the glide path, for the pool) holds, over the value and all outside amounts, the allocation's stock, bond and VTIP percentages |
| Calc.ToBuy | src/calc.rs:29-107 | fails exactly when the retirement calculation fails, with its error; otherwise each account gets its computed record, the brokerage falling back to the stand-alone calculation when non-empty, and the pooled target is stored |
| Calc.Assemble | src/calc.rs:83-106 | a fresh rebalance holding the computed record of each account kind (default where none), the stand-alone brokerage calculation when the brokerage was not pooled but holds something, and the pooled target |
| Calc.MinimumDistribution | src/calc.rs:386-390 | for a listed age the result times the divisor is the account value; 0 for an unlisted age |
| Calc.MinimumDistributionMonotone | src/calc.rs:386-390 | over a positive divisor a larger account needs a larger distribution |
| App.WithDefault | src/app.rs:219-238 | the name gets an entry if it had none; every existing entry is kept |
| App.WithDefaultIdempotent | src/app.rs:219-238 | creating a profile twice is creating it once |
| App.DeleteUndoesCreate | src/app.rs:219-249 | delete after create equals delete alone, and restores a map that lacked the name |
| App.CreateAfterDeleteResets | src/app.rs:219-249 | create after delete resets the name to the default entry |
| App.RmdMessage | src/app.rs:462-485 | not due gives "no distribution needed"; no end-of-year value gives "more history needed"; a zero divisor keeps the line; otherwise the line is a requirement with minimum × divisor equal to the value, the so-far amount given, and a to-go that is at least 0 and at least minimum − so far, and equal to one of them |
| App.RmdMinimumIsLookup | src/app.rs:471-475 | once due, the app's minimum is the minimum-distribution lookup, and an unlisted age keeps the line |
| App.VaporeApp.constructor | src/app.rs:81-119 | no profiles, an empty table and the prompt line |
| App.VaporeApp.CreateProfile | src/app.rs:219-238 | each of the six maps gets its default for the name unless present; the profile is then complete |
| App.VaporeApp.DeleteProfile | src/app.rs:242-249 | the name leaves all six maps; other names are untouched |
| App.VaporeApp.MinKeyOr | src/app.rs:462 | the table's smallest age, or 70 for an empty table |
| App.VaporeApp.LoadDistributionTable | src/app.rs:453-488 | stores the table; for a ready profile, sets the line as `RmdMessage` of the due check, the end-of-year value and the so-far amount read after the replay |

## Left out

- The network quote service: `get_yahoo_quote`, `get_yahoo_eoy_quote`, `add_missing_quotes` and `add_missing_eoy_quotes`. End-of-year quotes are a parameter, and the quote-fetch error of `eoy_value` is not modelled.
- `year - 1` in the end-of-year quote fetch would underflow for year 0. The fetch is not part of this model.
- `parse_csv_download`, the export reader. The `Parsed` constructor stands for its result; its per-row aggregation is `AddStockinfoValue`.
- File reading in `calculate_minimum_distribution` and `get_distribution_table`. The table is a map input; only the lookup tail is modelled.
- All `Display` implementations, the description strings, and the message strings, which become `DistributionMessage` values. The numeric formatting is not modelled.
- The rest of the app: egui panels, persistence, file dialogs, the Alpaca call, the thread-spawning `execute`, and the `Arc<Mutex<…>>` sharing.
- `f32` rounding, NaN and infinity are not modelled; values are exact reals. So the exact checks at src/asset.rs:79 and src/calc.rs:289 and 316 never fail spuriously here, as they can under `f32` drift.
- Holdings.Div: requires no zero slot in the divisor, where `f32` would produce infinity or NaN. Every caller divides by quote records that start at 1.
- Calc.MinimumDistribution: requires a nonzero divisor for a listed age, where `f32` would produce infinity.
- Calc.Account, Calc.BrokerageCalc, Calc.RetirementPlan, Calc.PlanFor, Calc.RetirementCalc, Calc.PlaceAccounts, Calc.ToBuy: require a quote record with no zero slot, for the same reason.
- Ledger.VanguardHoldings.EoyTraditionalHoldings: requires `YearArgOk`. A year argument that does not fit in 32 bits, or whose boundary date arithmetic overflows, aborts the source program.
- App.VaporeApp.LoadDistributionTable: requires that the distribution year is not before the birth year, because the source's `u32` subtraction aborts there. It also requires `YearArgOk`.
- App.VaporeApp.LoadDistributionTable: uses the share-count replay (`EoyValueByShares`) in place of the as-written `EoyValue`; see Findings.
- App.VaporeApp.LoadDistributionTable, Ledger.VanguardHoldings.EoyValueByShares: the year-end quotes are a parameter (fetching them is network I/O); they require `YearEndQuotes`, which the source's `new_quote` followed by `add_missing_eoy_quotes` always gives (see `YearEndQuotesBuilt`).
- Holdings.AddStockValue and the other `&mut self` record setters are functions returning the updated record. A `ShareValues` is a copied value in the source and is never aliased.
- The wall-clock year read by `Allocations::retirement` is the `thisYear` parameter.
- The `distributions` map accumulates on every replay, so pressing the button twice counts the year's distributions twice. This is modelled as written and shown by `ReplayTwiceDoublesDistributions`.

## Findings

| source | as written | input that shows it | evidently intended | confidence | as-written member | corrected member |
|---|---|---|---|---|---|---|
| src/holdings.rs:1008-1024 | `eoy_value` replays the ledger from `accounts_values` (dollar amounts), subtracts share counts from them, and multiplies the result by per-share end-of-year quotes | one account holding 10 BND worth 1000, BND quoted at 100, no ledger rows moving BND: valued at 100000 | replay from `accounts_shares` (share counts) with the unsupported bucket kept at its dollar value (its share record only holds a 1 and its quote is 1), so the snapshot is priced once: 1000 | not executed | Ledger.EoyValueUnitsMismatch | Ledger.EoyValueBySharesConsistent |
