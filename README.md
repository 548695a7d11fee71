# StockAnalyzer core, modelled in Dafny

StockAnalyzer is a personal-finance web application. It has an Angular frontend and two interchangeable backends, one in ASP.NET and one in FastAPI. Most of it is UI, plus HTTP pass-through to market-data and brokerage APIs. This project models the parts that compute something and proves what they promise:

- **Debt calculator** (`debt_calculator.dfy`). The calculator derives a fixed monthly payment, either by straight division at a zero rate or by the annuity formula. From it come the total paid, the total interest, and simple daily and weekly interest.
  - It builds the month-by-month amortisation schedule, whose balance is clamped at 0.
  - It computes the payoff time for a custom payment.
  - It folds the saved loans into six aggregate totals.
  - The component is a class whose methods assign its fields. The schedule is built by a `while` loop proved against a recursive specification.
  - The main theorem: with the computed payment, the clamp never fires, the balance reaches exactly 0 in the last month, and the principal column adds up to the principal.
- **Watchlist** (`watchlist_service.dfy`). An in-memory list of tracked symbols with four operations: add (duplicates are skipped), remove, membership and notes update. It keeps the invariant that no two items share a symbol.
- **Quote/watchlist join** (`watchlist_component.dfy`). The watchlist page orders the fetched quotes by watchlist order. Matching ignores case, the first match wins, and symbols without a quote are skipped. The page state is assigned in the load callbacks.
- **SnapTrade portfolio arithmetic** (`snaptrade_models.dfy`, `snaptrade_dotnet.dfy`, `snaptrade_python.dfy`). Both backends parse holdings and accounts from JSON, derive gain/loss and percentages, and sum accounts into a portfolio. Their guards differ, and the model states how precisely:
  - Within the model's JSON input, where every field is absent, `null` or a value of the right kind, and its arithmetic does not overflow, .NET throws exactly when the portfolio's whole positive balance is gain or a numeric field is JSON `null`.
  - Python never divides by zero and turns a null number into 0. It rejects a null string field.
  - Python reports a percentage for a negative cost basis, where .NET reports 0.
- **Portfolio page** (`portfolio_component.dfy`). Per-account totals and gain percentage, the map of expanded panels, and the load callbacks.
- **User-secret store** (`user_secrets.dfy`). The process-wide dictionary from user id to SnapTrade secret that all three backend copies keep.
- **`_to_camel`** (`camel_case.dfy`). The Python alias generator: split at `_`, lower-case the head, capitalise the rest and concatenate.
- **Supabase configuration** (`supabase_service.dfy`). The URL and key validators, and the client created once and shared by every service instance.

`wrappers.dfy` holds the shared `Option`/`Result` types, a three-way JSON `Field` (absent, `null`, present) and `JsNumber`. `JsNumber` is a JavaScript number idealised as a `real`, or `NonFinite` for NaN and the infinities.

Numbers are modelled as `real` throughout. That idealises both C# `decimal` and the IEEE doubles of JavaScript and Python. Division by zero is modelled where the source can reach it: JavaScript yields `NonFinite`, C# yields an `Err`.

## Model

| member | source | states |
|---|---|---|
| DebtCalculator.Max0 | frontend/src/app/components/debt-calculator.component.ts:458 | `Math.max(0, x)` is never negative, is at least `x`, and is `x` or 0 |
| DebtCalculator.Ceil | frontend/src/app/components/debt-calculator.component.ts:483 | `Math.ceil(x)` is the integer n with x <= n < x + 1 |
| DebtCalculator.PaymentCoversPrincipal | frontend/src/app/components/debt-calculator.component.ts:430-439 | the fixed payment times the term is at least the principal, and equals it exactly when the rate is 0 |
| DebtCalculator.ScheduleAt | frontend/src/app/components/debt-calculator.component.ts:455-467 | the schedule has one row per month and row k is the entry pushed in month k + 1 |
| DebtCalculator.ScheduleLength | frontend/src/app/components/debt-calculator.component.ts:455-467 | the schedule for `months` months has exactly `months` rows |
| DebtCalculator.RowAt | frontend/src/app/components/debt-calculator.component.ts:453-458 | row k is computed from the previous row's remaining balance (the principal for the first row) |
| DebtCalculator.EntryBalance | frontend/src/app/components/debt-calculator.component.ts:458 | a row's remaining balance is the balance the loop holds after that month |
| DebtCalculator.BalanceNonNegative | frontend/src/app/components/debt-calculator.component.ts:458 | the clamped balance is never negative |
| DebtCalculator.EntryShape | frontend/src/app/components/debt-calculator.component.ts:455-466 | each entry has month k + 1, the fixed payment, interest = previous balance × rate, principal + interest = payment, a balance >= 0, and no increase when the principal part is >= 0 |
| DebtCalculator.StepShape | frontend/src/app/components/debt-calculator.component.ts:456-458 | one month's principal and interest add up to the payment; the new balance is >= 0 and not above the old one when the principal part is >= 0 |
| DebtCalculator.RowShape | frontend/src/app/components/debt-calculator.component.ts:455-466 | row k of the schedule has the shape EntryShape states, measured from the previous row |
| DebtCalculator.ScheduleShape | frontend/src/app/components/debt-calculator.component.ts:451-467 | every row of the schedule has that shape, and there are exactly `months` rows |
| DebtCalculator.SumPrincipalSchedule | frontend/src/app/components/debt-calculator.component.ts:457-463 | the principal column of the schedule adds up to the principal paid month by month |
| DebtCalculator.PrincipalTelescopes | frontend/src/app/components/debt-calculator.component.ts:456-458 | when the clamp never fires, the principal paid is the principal less the final balance |
| DebtCalculator.ZeroRateBalance | frontend/src/app/components/debt-calculator.component.ts:430-432 | at a zero rate the balance after k months is (principal / months) × (months − k) |
| DebtCalculator.ZeroRateAmortises | frontend/src/app/components/debt-calculator.component.ts:430-432 | at a zero rate the balance reaches exactly 0 after the last month and the clamp never fires |
| DebtCalculator.AnnuityAmortises | frontend/src/app/components/debt-calculator.component.ts:434-435 | with the annuity payment the balance reaches exactly 0 after the last month and the clamp never fires |
| DebtCalculator.PaymentAmortises | frontend/src/app/components/debt-calculator.component.ts:430-436 | for any non-negative rate the computed payment amortises the loan exactly, without clamping |
| DebtCalculator.ScheduleAmortises | frontend/src/app/components/debt-calculator.component.ts:451-467 | with the computed payment the schedule has `months` rows, ends at balance 0, its principal parts sum to the principal, and each balance is the previous one less its principal part |
| DebtCalculator.ZeroRateSchedule | frontend/src/app/components/debt-calculator.component.ts:430-432 | at a zero rate the payment is principal / months and every row has interest 0 and principal part equal to the payment |
| DebtCalculator.CeilPayoffIsLeast | frontend/src/app/components/debt-calculator.component.ts:481-484 | `ceil(principal / customPayment)` payments cover the principal and one fewer does not |
| DebtCalculator.SumAppend | frontend/src/app/components/debt-calculator.component.ts:639-651 | a total over two lists of loans is the sum of their totals |
| DebtCalculator.SumSingle | frontend/src/app/components/debt-calculator.component.ts:639-651 | a one-loan total is that loan's contribution |
| DebtCalculator.SumRemoveAt | frontend/src/app/components/debt-calculator.component.ts:639-651 | removing loan j lowers a total by exactly its contribution |
| DebtCalculator.SumPermutation | frontend/src/app/components/debt-calculator.component.ts:639-651 | a total does not depend on the order of the loans |
| DebtCalculator.SumPrincipalPlusInterest | frontend/src/app/components/debt-calculator.component.ts:640-643 | the sum of principal plus interest is the principal sum plus the interest sum |
| DebtCalculator.SumAgree | frontend/src/app/components/debt-calculator.component.ts:639-651 | two measures that agree on every loan give the same total |
| DebtCalculator.TotalAmountIsPerLoanSum | frontend/src/app/components/debt-calculator.component.ts:642-643 | the total amount is the per-loan sum of principal plus interest, and the sum of amounts paid for loans saved from the calculator; no loans give all-zero totals |
| DebtCalculator.AggregateAppend | frontend/src/app/components/debt-calculator.component.ts:638-652 | appending a loan adds exactly its contribution to each of the six totals |
| DebtCalculator.AggregateRemove | frontend/src/app/components/debt-calculator.component.ts:638-652 | removing a loan subtracts exactly its contribution from each of the six totals |
| DebtCalculator.AggregateOrderIndependent | frontend/src/app/components/debt-calculator.component.ts:638-652 | the six totals do not depend on the order of the loans |
| DebtCalculator.ParseInt | frontend/src/app/components/debt-calculator.component.ts:424 | `parseInt` of a non-negative term is its whole part |
| DebtCalculator.CalculationInterest | frontend/src/app/components/debt-calculator.component.ts:438-439 | the total interest of a positive principal is never negative, and is 0 exactly when the rate is 0 |
| DebtCalculator.CalculationSchedule | frontend/src/app/components/debt-calculator.component.ts:448 | the schedule generated for a calculation has `months` rows, ends at 0 and repays exactly the principal |
| DebtCalculator.DebtCalculatorComponent.constructor | frontend/src/app/components/debt-calculator.component.ts:364-389 | every figure starts at 0, with an empty form, schedule and loan list |
| DebtCalculator.DebtCalculatorComponent.CalculatePayment | frontend/src/app/components/debt-calculator.component.ts:417-449 | an invalid form changes nothing; otherwise the term is the whole part of the input, and the figures and schedule are those of `Calculate` and `Schedule` |
| DebtCalculator.DebtCalculatorComponent.GeneratePaymentSchedule | frontend/src/app/components/debt-calculator.component.ts:451-468 | the loop replaces the schedule with exactly the specified schedule (no rows for a term <= 0) |
| DebtCalculator.DebtCalculatorComponent.CalculateCustomPayment | frontend/src/app/components/debt-calculator.component.ts:470-493 | both outputs 0 when either payment is not positive; at a zero rate the ceiling payoff and no interest; otherwise the logarithm formula, with NaN/infinite cases as `NonFinite` |
| DebtCalculator.DebtCalculatorComponent.ResetForm | frontend/src/app/components/debt-calculator.component.ts:617-636 | the form and every computed figure are cleared |
| DebtCalculator.DebtCalculatorComponent.CalculateAggregateTotals | frontend/src/app/components/debt-calculator.component.ts:638-652 | the shown totals are the aggregate of the loans, the total amount is principal + interest, and no loans give zeros |
| DebtCalculator.DebtCalculatorComponent.OnLoansChanged | frontend/src/app/components/debt-calculator.component.ts:407-410 | the new list is stored and the totals are recomputed from it |
| WatchlistService.AddIdempotent | frontend/src/app/services/watchlist.service.ts:29-31 | adding a present symbol changes nothing, so a second add of the same symbol is a no-op |
| WatchlistService.AddAppends | frontend/src/app/services/watchlist.service.ts:33-42 | adding a new symbol appends exactly one item with its id, symbol, date and notes and keeps the earlier items in order |
| WatchlistService.AddKeepsUnique | frontend/src/app/services/watchlist.service.ts:25-43 | add keeps the list free of duplicate symbols |
| WatchlistService.AddContains | frontend/src/app/services/watchlist.service.ts:25-43 | after an add the symbol is on the list |
| WatchlistService.WithoutMembers | frontend/src/app/services/watchlist.service.ts:49 | an item survives removal exactly when it was on the list with another symbol |
| WatchlistService.WithoutConcat | frontend/src/app/services/watchlist.service.ts:49 | filtering a concatenation filters each part, so the kept items stay in order |
| WatchlistService.WithoutShrinks | frontend/src/app/services/watchlist.service.ts:49 | removal never lengthens the list, leaves it unchanged when the symbol is absent, and shortens it when present |
| WatchlistService.RemoveExcludes | frontend/src/app/services/watchlist.service.ts:48-52 | after a removal the symbol is not on the list |
| WatchlistService.RemoveKeepsUnique | frontend/src/app/services/watchlist.service.ts:48-52 | removal keeps the list free of duplicate symbols |
| WatchlistService.UpdateNotesShape | frontend/src/app/services/watchlist.service.ts:64-70 | a notes update keeps length, order, ids, symbols and dates, and changes only the notes of matching items |
| WatchlistService.UpdateNotesKeepsSymbols | frontend/src/app/services/watchlist.service.ts:64-70 | a notes update keeps the same symbols present and keeps them unique |
| WatchlistService.Watchlist.constructor | frontend/src/app/services/watchlist.service.ts:10 | the list starts as the stored list |
| WatchlistService.Watchlist.AddToWatchlist | frontend/src/app/services/watchlist.service.ts:25-43 | the new list is the specified add, the symbol is present afterwards, and uniqueness is preserved |
| WatchlistService.Watchlist.RemoveFromWatchlist | frontend/src/app/services/watchlist.service.ts:48-52 | the new list is the filter, the symbol is absent afterwards, and uniqueness is preserved |
| WatchlistService.Watchlist.IsInWatchlist | frontend/src/app/services/watchlist.service.ts:57-59 | true exactly when some item has the symbol |
| WatchlistService.Watchlist.UpdateNotes | frontend/src/app/services/watchlist.service.ts:64-70 | the new list is the specified notes update, and uniqueness is preserved |
| WatchlistComponent.ToUpperIdempotent | frontend/src/app/components/watchlist.component.ts:629 | upper-casing twice is upper-casing once and leaves no lower-case ASCII letter |
| WatchlistComponent.FindFirst | frontend/src/app/components/watchlist.component.ts:639 | `find` gives nothing exactly when no element matches, and otherwise the first matching element |
| WatchlistComponent.Keys | frontend/src/app/components/watchlist.component.ts:629 | one key per watchlist item |
| WatchlistComponent.Join | frontend/src/app/components/watchlist.component.ts:638-640 | the join is never longer than the symbol list |
| WatchlistComponent.JoinConcat | frontend/src/app/components/watchlist.component.ts:638-640 | the join of concatenated symbol lists is the concatenation of the joins, so results follow watchlist order |
| WatchlistComponent.JoinComplete | frontend/src/app/components/watchlist.component.ts:638-640 | when every symbol has a quote, the join has one element per symbol, each the first matching quote |
| WatchlistComponent.JoinMembers | frontend/src/app/components/watchlist.component.ts:638-640 | a quote is in the join exactly when it is the first match of some symbol |
| WatchlistComponent.JoinEmpty | frontend/src/app/components/watchlist.component.ts:638-640 | the join is empty exactly when no symbol has a matching quote |
| WatchlistComponent.CaseInsensitiveFirstMatch | frontend/src/app/components/watchlist.component.ts:639 | example: a lower-case quote symbol matches an upper-case key, and of two matching quotes the earlier is chosen |
| WatchlistComponent.WatchlistPage.constructor | frontend/src/app/components/watchlist.component.ts:488-491 | the page starts with no items, no quotes, no error and not loading |
| WatchlistComponent.WatchlistPage.LoadWatchlist | frontend/src/app/components/watchlist.component.ts:620-622 | loading starts and the error is cleared |
| WatchlistComponent.WatchlistPage.OnWatchlist | frontend/src/app/components/watchlist.component.ts:624-660 | items are stored; a non-empty list requests quotes for the upper-cased symbols; an empty one clears the quotes and stops loading |
| WatchlistComponent.WatchlistPage.OnQuotes | frontend/src/app/components/watchlist.component.ts:633-649 | the quotes become the join, loading stops, and the error is set exactly when symbols were requested but none matched |
| WatchlistComponent.WatchlistPage.OnQuotesError | frontend/src/app/components/watchlist.component.ts:650-655 | the quote-failure message is set, quotes cleared, loading stopped |
| WatchlistComponent.WatchlistPage.OnWatchlistError | frontend/src/app/components/watchlist.component.ts:662-668 | the watchlist-failure message is set, items and quotes cleared, loading stopped |
| WatchlistComponent.WatchlistPage.GetAddedDate | frontend/src/app/components/watchlist.component.ts:686-689 | the date of the first item with exactly that symbol, or the current time when there is none |
| WatchlistComponent.LoadedQuotesFollowWatchlist | frontend/src/app/components/watchlist.component.ts:628-640 | when every item has a quote, the shown quotes correspond one to one, in order, to the items, ignoring case |
| SnapTrade.PortfolioCurrency | backend/Services/SnapTradeService.cs:273 | the first account's currency, or USD when there are no accounts |
| SnapTrade.SumsAppend | backend/Services/SnapTradeService.cs:260-261 | the balance and gain totals over two account lists add up |
| SnapTrade.HoldingSumsAppend | backend/Services/SnapTradeService.cs:261 | the gain and value sums over two holding lists add up |
| SnapTrade.SumsSingle | backend/Services/SnapTradeService.cs:260-261 | one account contributes its balance (0 when missing) and the gain of its holdings |
| SnapTrade.WithHoldings | backend/Services/SnapTradeService.cs:255-258 | loading holdings keeps the number of accounts |
| SnapTrade.WithHoldingsKeeps | backend/Services/SnapTradeService.cs:255-258 | loading holdings changes only the holdings, so the balance total and the currency are unchanged |
| SnapTrade.LoadHoldings | backend/Services/SnapTradeService.cs:255-258 | the loop assigns each account, in place, the holdings fetched for its id |
| SnapTradeDotNet.StringOr | backend/Services/SnapTradeService.cs:331-336 | a present string is kept; a missing or null one gives the default |
| SnapTradeDotNet.DecimalOr | backend/Services/SnapTradeService.cs:342-345 | a present number is kept, a missing one gives the default, and a null one throws |
| SnapTradeDotNet.HoldingPercent | backend/Services/SnapTradeService.cs:347 | gain over cost basis × 100 for a positive cost basis, otherwise 0 |
| SnapTradeDotNet.ParseHolding | backend/Services/SnapTradeService.cs:340-360 | throws exactly when a numeric field is null; otherwise present numbers are kept and absent ones default to 0, total value = quantity × price when missing, gain = value − cost basis, and the guarded percentage |
| SnapTradeDotNet.ParseAccount | backend/Services/SnapTradeService.cs:326-338 | throws exactly when `id` is missing or the balance is null; the strings default to "" (currency to USD) and the balance to none |
| SnapTradeDotNet.PortfolioPercent | backend/Services/SnapTradeService.cs:262-264 | 0 for a non-positive balance; throws exactly when a positive balance equals the gain; otherwise gain / (balance − gain) × 100 |
| SnapTradeDotNet.Summary | backend/Services/SnapTradeService.cs:260-274 | throws exactly when the percentage does; otherwise the user, accounts, sums, percentage and currency |
| SnapTradeDotNet.GetPortfolio | backend/Services/SnapTradeService.cs:250-275 | holdings are loaded into every account, then the summary of the loaded accounts is returned |
| SnapTradeDotNet.AllGainThrows | backend/Services/SnapTradeService.cs:262-264 | example: an account whose whole value is gain makes the portfolio computation throw |
| SnapTradePython.FloatOrZero | backend_python/services/snaptrade_service.py:80-82 | a missing, null or zero number gives 0 |
| SnapTradePython.NullFields | backend_python/services/snaptrade_service.py:86-95 | the rejected fields are exactly the null ones, in order |
| SnapTradePython.HoldingPercent | backend_python/services/snaptrade_service.py:85 | gain over cost basis × 100 for any non-zero cost basis, else 0 |
| SnapTradePython.ParseHolding | backend_python/services/snaptrade_service.py:79-95 | rejected exactly when symbol or currency is null; otherwise numbers default to 0, a missing/null/zero total value becomes quantity × price, gain = value − cost basis |
| SnapTradePython.ParseAccount | backend_python/services/snaptrade_service.py:67-76 | rejected exactly when a string field is null; the strings default to "" (currency to USD) and a missing or null balance to none |
| SnapTradePython.PortfolioPercent | backend_python/services/snaptrade_service.py:133-137 | gain / (balance − gain) × 100 whenever that divisor is non-zero, 0 otherwise; 0 exactly when the divisor or the gain is 0 |
| SnapTradePython.Summary | backend_python/services/snaptrade_service.py:131-146 | the user, accounts, sums, never-failing percentage and currency |
| SnapTradePython.GetPortfolio | backend_python/services/snaptrade_service.py:127-146 | holdings are loaded into every account, then the summary is returned |
| SnapTradePython.HoldingPercentsCompare | backend_python/services/snaptrade_service.py:85 | the two backends agree on a non-negative cost basis; for a negative one only Python reports a percentage |
| SnapTradePython.PortfolioPercentsCompare | backend_python/services/snaptrade_service.py:133-137 | agreement for a positive balance that differs from the gain; .NET throws where Python gives 0 when they are equal; .NET gives 0 where Python divides for a non-positive balance |
| SnapTradePython.ParseHoldingsAgree | backend_python/services/snaptrade_service.py:79-95 | with every number given, a non-zero total value, a non-negative cost basis and non-null strings, both backends build the same holding |
| SnapTradePython.ZeroTotalValueDiffers | backend_python/services/snaptrade_service.py:83 | example: a zero total value is kept by .NET and replaced by quantity × price in Python |
| SnapTradePython.NullQuantityDiffers | backend_python/services/snaptrade_service.py:80 | example: a null quantity makes .NET throw and Python count 0 |
| PortfolioComponent.AccountTotalValue | src/app/components/portfolio.component.ts:538-543 | 0 for missing holdings, otherwise the sum of the holdings' values (the early return for an empty list agrees with the fold) |
| PortfolioComponent.AccountTotalGainLoss | src/app/components/portfolio.component.ts:545-550 | 0 for missing holdings, otherwise the sum of the holdings' gains |
| PortfolioComponent.AccountTotalGainLossPercent | src/app/components/portfolio.component.ts:552-559 | 0 for a zero value; infinite exactly when the value is non-zero and all gain; otherwise gain / (value − gain) × 100 |
| PortfolioComponent.ValueLessGainIsCost | src/app/components/portfolio.component.ts:558 | for holdings whose gain is value less cost basis, value less gain summed over an account is its cost basis |
| PortfolioComponent.AccountPercentOverCostBasis | src/app/components/portfolio.component.ts:552-559 | for such holdings the account percentage is gain over cost basis, and it is infinite exactly when the cost basis is 0 but the value is not |
| PortfolioComponent.ToggleFlipsOnly | src/app/components/portfolio.component.ts:530-532 | a toggle flips panel i, a missing entry reading as collapsed, and leaves every other panel alone |
| PortfolioComponent.ToggleTwice | src/app/components/portfolio.component.ts:530-532 | toggling twice restores every panel, and restores the map itself when it already had an entry |
| PortfolioComponent.ErrorText | src/app/components/portfolio.component.ts:519 | the body's message if non-empty, else the error's message if non-empty, else the fixed text; never empty |
| PortfolioComponent.PortfolioPage.constructor | src/app/components/portfolio.component.ts:487-491 | no portfolio, not loading, no error, nothing expanded |
| PortfolioComponent.PortfolioPage.LoadPortfolio | src/app/components/portfolio.component.ts:504-506 | loading starts and the error is cleared |
| PortfolioComponent.PortfolioPage.OnPortfolio | src/app/components/portfolio.component.ts:510-516 | the portfolio is stored, loading stops, and account 0 is expanded when there is an account |
| PortfolioComponent.PortfolioPage.OnPortfolioError | src/app/components/portfolio.component.ts:518-522 | the error text is set and loading stops |
| PortfolioComponent.PortfolioPage.ToggleAccount | src/app/components/portfolio.component.ts:530-532 | panel `index` flips and no other panel changes |
| UserSecrets.Lookup | backend/StockAnalyzer.Api/Services/UserService.cs:9-13 | a secret exactly for a stored user, namely the stored one |
| UserSecrets.LookupAfterStore | backend/Services/UserService.cs:15-19 | after a store the user's lookup is the new secret and every other user's lookup is unchanged |
| UserSecrets.StoreOverwrites | backend/Services/UserService.cs:17 | a second store for the same user overwrites the first |
| UserSecrets.LastStoredIsLatest | backend_python/services/user_service.py:11-12 | the last store for a user is none exactly when the user was never stored, and otherwise the latest such store |
| UserSecrets.ReplayLookup | backend_python/services/user_service.py:4-12 | after any sequence of stores a lookup gives the user's last stored secret, and none for a user never stored |
| UserSecrets.SecretStore.constructor | backend/StockAnalyzer.Api/Services/UserService.cs:7 | the dictionary starts empty |
| UserSecrets.SecretStore.GetUserSecret | backend/StockAnalyzer.Api/Services/UserService.cs:9-13 | a secret exactly for a user in the current dictionary, namely the stored one |
| UserSecrets.SecretStore.StoreUserSecret | backend/StockAnalyzer.Api/Services/UserService.cs:15-19 | insert or overwrite; the user then gets the new secret and no other user's secret changes |
| UserSecrets.SecretStore.UserExists | backend/StockAnalyzer.Api/Services/UserService.cs:21-24 | true exactly when a secret is stored for the user |
| CamelCase.Lower | backend_python/models/common.py:8 | `str.lower` keeps the length of the text |
| CamelCase.Capitalize | backend_python/models/common.py:8 | `str.capitalize` keeps the length of the text |
| CamelCase.Split | backend_python/models/common.py:7 | `split("_")` always yields at least one part |
| CamelCase.SplitCount | backend_python/models/common.py:7 | one part more than there are underscores |
| CamelCase.SplitPartsClean | backend_python/models/common.py:7 | no part contains an underscore |
| CamelCase.SplitLength | backend_python/models/common.py:7 | the parts' lengths plus the underscores make up the name |
| CamelCase.SplitJoin | backend_python/models/common.py:7 | joining the parts with underscores gives back the name |
| CamelCase.JoinSplit | backend_python/models/common.py:7 | splitting underscore-free parts joined by underscores gives back the parts |
| CamelCase.SplitAtUnderscore | backend_python/models/common.py:7 | an underscore after an underscore-free head cuts off exactly that head |
| CamelCase.SplitNoUnderscore | backend_python/models/common.py:7 | a name without underscores is one part |
| CamelCase.CaseKeepsUnderscores | backend_python/models/common.py:8 | lower-casing and capitalising neither add nor remove underscores |
| CamelCase.CapitalizeAllFacts | backend_python/models/common.py:8 | capitalising and concatenating keeps the total length and adds no underscore |
| CamelCase.NoUnderscores | backend_python/models/common.py:6-8 | the alias never contains an underscore |
| CamelCase.AliasLength | backend_python/models/common.py:6-8 | the alias is one character shorter per underscore, so empty parts contribute nothing |
| CamelCase.NoUnderscoreLowers | backend_python/models/common.py:8 | a name without underscores maps to its lower-cased form |
| CamelCase.CamelOfParts | backend_python/models/common.py:6-8 | the alias of joined parts is the lower-cased head followed by the capitalised tails, in order |
| CamelCase.LowerKeeps | backend_python/models/common.py:8 | lower-casing leaves text without upper-case letters unchanged |
| CamelCase.CapitalizeLowerCase | backend_python/models/common.py:8 | capitalising lower-case text upper-cases only its first character |
| CamelCase.TwoPartAlias | backend_python/models/common.py:6-8 | `head_tail` becomes the lower-cased head followed by the capitalised tail |
| CamelCase.LowerTwoPartAlias | backend_python/models/common.py:6-8 | a lower-case `head_tail` becomes head followed by tail with its first letter upper-cased |
| CamelCase.ThreePartAlias | backend_python/models/common.py:6-8 | `a_b_c` becomes lower(a) + capitalize(b) + capitalize(c) |
| CamelCase.ChangePercentAlias | backend_python/models/stock_models.py:24 | example: `change_percent` becomes `changePercent` |
| CamelCase.High52WeekAlias | backend_python/models/stock_models.py:43 | example: `high_52_week` becomes `high52Week`: a digit-led part is unchanged by capitalising |
| CamelCase.SymbolAlias | backend_python/models/stock_models.py:13 | example: `symbol` stays `symbol` |
| CamelCase.CreatedAtAlias | backend_python/models/snaptrade_models.py:17 | example: `created_at` becomes `createdAt` |
| CamelCase.SupportsOauthAlias | backend_python/models/snaptrade_models.py:26 | example: `supports_oauth` becomes `supportsOauth` |
| CamelCase.UpperCaseAlias | backend_python/models/snaptrade_models.py:7-9 | example: `USER_ID` becomes `userId`: the head is lower-cased and the tail's rest too |
| CamelCase.EmptyPartAlias | backend_python/models/common.py:6-8 | example: `a__b` becomes `aB`: the empty part contributes nothing |
| SupabaseService.TrimStartFacts | frontend/src/app/services/supabase.service.ts:24 | trimming the front drops a whitespace prefix and stops at the first other character |
| SupabaseService.TrimEndFacts | frontend/src/app/services/supabase.service.ts:24 | trimming the end drops a whitespace suffix and stops at the last other character |
| SupabaseService.TrimStartBlank | frontend/src/app/services/supabase.service.ts:93 | trimming the front leaves nothing exactly for all-whitespace text |
| SupabaseService.TrimEndKeepsFirst | frontend/src/app/services/supabase.service.ts:93 | trimming the end keeps text that starts with a non-blank character non-empty |
| SupabaseService.TrimBlank | frontend/src/app/services/supabase.service.ts:112 | text trims to "" exactly when it is all whitespace |
| SupabaseService.KeyValidity | frontend/src/app/services/supabase.service.ts:111-123 | a key is valid exactly when it has a non-blank character, contains no `YOUR_`, and is longer than 20 |
| SupabaseService.UrlValidity | frontend/src/app/services/supabase.service.ts:92-109 | a URL is valid exactly when it is non-blank, contains no `YOUR_`, and parses as `https:` with a host containing `supabase.co`; a blank or placeholder URL is refused whatever the parser says |
| SupabaseService.ClientRegistry.constructor | frontend/src/app/services/supabase.service.ts:10 | the shared instance starts unset |
| SupabaseService.Service.InitializeClient | frontend/src/app/services/supabase.service.ts:17-79 | a set shared client is reused without validation; an invalid configuration throws and sets nothing; otherwise the created client is stored in both places, or the creation error is rethrown and nothing is set |
| SupabaseService.Service.Create | frontend/src/app/services/supabase.service.ts:12-79 | construction initialises at once: on success the new service holds the shared client; with a shared client it always succeeds; with none, an invalid configuration throws, a successful `createClient` gives a service holding that client, now shared, and a failing one rethrows its error with the registry still unset |
| SupabaseService.Service.Empty | frontend/src/app/services/supabase.service.ts:9 | a service starts without a client |
| SupabaseService.Service.GetClient | frontend/src/app/services/supabase.service.ts:81-90 | the service's client when it has one; otherwise the shared client; with neither, the result of the fallback initialisation: its error, or the created client, now held by both |
| SupabaseService.SharedClient | frontend/src/app/services/supabase.service.ts:19-22 | a first service with a valid configuration and a working `createClient` holds the created client, and once a first service is created, a second one succeeds with the same client whatever its configuration |

## Left out

- Browser storage, HTTP, Supabase queries and pydantic/JSON decoding are left out: they are I/O. The watchlist's `loadWatchlist`/`saveWatchlist`, all of `loan.service.ts`, the SnapTrade fetches and the routers and controllers are not part of this model. Fetched holdings are a function parameter, and raw JSON is a record of three-way fields.
- `generateId` and `new Date()` become parameters of `AddToWatchlist` (id, now) and `GetAddedDate` (now), because they read the clock and a random source.
- IEEE-754 rounding, `decimal` precision and display formatting are not modelled; numbers are `real`.
- `Math.log` is a parameter `ln` of `CalculateCustomPayment`, because Dafny cannot compute it. Only its use in the payoff formula is modelled, with every NaN or infinite outcome as `NonFinite`.
- DebtCalculator.DebtCalculatorComponent.CalculateCustomPayment: the logarithm branch is stated in terms of the abstract `ln`. No bound on the payoff months is proved there, because the model gives `ln` no properties.
- `saveLoan`, `updateLoan`, `deleteLoan`, `editLoan`, `openCalculator` and `closeCalculator` are left out. They persist through the loan service or only scroll the window. The totals they recompute are `CalculateAggregateTotals`.
- The form is modelled by its parsed values (`None` for an empty input). `parseFloat` of malformed text is not modelled.
- Case mapping (`toUpperCase`, `str.lower`, `str.capitalize`) is modelled for ASCII letters only; non-ASCII case mapping is not.
- SupabaseService.IsWhitespace: JavaScript `trim` also strips the rarer Unicode space separators and line terminators (U+1680, U+2000–U+200A, U+2028, U+2029, U+202F, U+205F, U+3000). The model strips only tab, line feed, vertical tab, form feed, carriage return, space, no-break space and the byte-order mark.
- SupabaseService.KeyValidity: key length counts Dafny characters (Unicode scalar values), not UTF-16 code units as JavaScript `length` does. The two differ only for characters outside the Basic Multilingual Plane.
- `new URL()` and `createClient` are parameters of the Supabase methods (`parse`, `createClient`), because they belong to the platform and the library. The `storageKey` option passed to `createClient` is not modelled, and neither is the console message.
- The static `clientInstance` is the field of a `ClientRegistry` object shared by the services, because Dafny has no static fields.
- The second "Supabase client not initialized" throw in the `client` getter is not modelled as a branch. `InitializeClient` proves that a successful initialisation always leaves a client, so that throw cannot happen.
- The older watchlist pages (`src/app/components/watchlist.component.ts`, `src/app/components/watchlist/watchlist.component.ts`) repeat the quote join case-sensitively. `Join` is parameterised by the key normalisation and covers them with the identity; their UI code is not part of this model.
- The frontend `Holding` record's extra `id` and `bookValue` fields are not modelled. The portfolio page only sums `totalValue` and `gainLoss`.
- PortfolioComponent.ToggleTwice: toggling a panel twice restores the map only when it already had an entry for that panel. Otherwise a `false` entry remains. What is restored in every case is which panels are shown expanded.
- The frontend's `Account.type` union of account kinds is a plain string.
- C# `decimal` overflow is not modelled. `quantity * currentPrice`, the gain and percentage arithmetic and the account sums in `SnapTradeService.cs` would throw `OverflowException` beyond about ±7.9 × 10^28; the model's `real` never overflows.
- A JSON field of the wrong kind is not modelled: `GetDecimal` on a string or `GetString` on a number throws in .NET. `Field<T>` only has the right kind, `null` or absent.
- Concurrency is not modelled. The static `_userSecrets` `Dictionary` of both C# `UserService` copies is shared by concurrent requests and is not thread-safe; the model is sequential.
- The `portfolio.accounts &&` null guard in the success callback of `loadPortfolio` is not modelled, because `Portfolio.accounts` is always a sequence in the model. `OnPortfolio` covers the empty list.
- A C# `null` user id, which would make the dictionary throw, is not modelled (ids are strings). Nor is the async `Task` wrapping.
- pydantic's validation of non-string values given to string fields (numbers, lists) is left out. Only `null` is modelled, and a rejection lists field names, not full error locations.
- The fetch errors of `GetAccountsAsync`/`get_accounts` and of the holdings calls are left out, along with their logging and rethrow. `GetPortfolio` starts from the fetched accounts.
- The Python `get_accounts` choice between an `accounts` key and a bare list is request decoding and is left out.
