# Budget calculator core in Dafny

This project models the calculation core of a single-page budget calculator (`app.jsx`, one React component). The calculator works as follows:

- **Allocation.** A paycheck is split by percentage into four main categories: Fixed, Flexible, Savings and Charity. A flat 33% tax can be withheld first. The Savings share is then split into four savings sub-categories: Rainy Day, Retirement, HSA and Big Purchases.
- **Ledger.** The allocation is credited to seven account records: every category except the Savings pool. Each record holds a balance, a goal and a monthly spend.
- **Analyses.** From the accounts, the percentages and the income settings, the component derives:
  - the operating runway, and the runway including the rainy-day reserve;
  - a forecast of whether the operating balance grows or shrinks;
  - the months each account needs to reach its goal;
  - the dashboard list of active goals, and a goal summary.
- **Optimisers.** Two optimisers suggest new main and savings percentages from each account's need.

The model is organised as follows:

| file | module | content |
|---|---|---|
| `categories.dfy` | `Categories` | category keys, account records, percentage maps (total maps over the four keys), constants and defaults |
| `categories.dfy` | `Wrappers` | `Option` |
| `jsmath.dfy` | `JsMath` | `Math.round`, `Math.ceil` and `roundToFive` over exact reals |
| `income.dfy` | `Income` | income settings, monthly income, expected net billing |
| `allocation.dfy` | `Allocation` | `calculateAllocations` |
| `runway.dfy` | `Runway` | runway and forecast |
| `goals.dfy` | `Goals` | months to goal, active goals, goal summary |
| `optimizer.dfy` | `Optimizer` | both optimisers |
| `ledger.dfy` | `Ledger` | `addToBalances` and the class `BudgetState`, which holds the component state and whose methods are the state-changing handlers |

Parts of the source that compute a value in `forEach` loops are modelled twice:

- a specification function;
- a method with the loop, proved equal to that function.

The lemmas are stated about the functions.

Some behaviours of the code are easy to misread, and the model keeps them as written:
- **Non-positive amount.** Allocating a non-positive amount yields no `netAmount` at all (app.jsx:344), so the ledger is left unchanged.
- **Savings remainder on ties.** The savings optimiser gives the remainder to the LAST maximal sub-category in display order. The `reduce` at app.jsx:505-507 compares with a strict `>`, so on equal values it keeps the later key.
- **Main optimiser is stable.** Re-running the main optimiser on its own output gives the same suggestion, whatever the accounts hold. Only the charity percentage is read from the current percentages, and the suggestion keeps it at or above its floor of 10.
- **No surplus in a growing forecast.** When the operating balance is below six months of spend and the net flow is exactly zero, the code computes the ceiling of the gap divided by zero, which is Infinity. The model returns the tag `Unreachable`.

## Model

| member | source | states |
|---|---|---|
| JsMath.Round | app.jsx:155 | `Math.round`: the integer within half a unit of x, with halves going up |
| JsMath.Ceil | app.jsx:229 | `Math.ceil`: the least integer not below x |
| JsMath.RoundToFive | app.jsx:155 | the result is a multiple of five within 2.5 of x (halves up) |
| JsMath.RoundToFiveFixesMultiples | app.jsx:155 | a multiple of five is left unchanged |
| JsMath.RoundToFiveMonotone | app.jsx:155 | rounding to five preserves order |
| JsMath.RoundToFiveKeepsSign | app.jsx:155 | a non-negative value rounds to a non-negative multiple of five |
| JsMath.RoundToFiveIdempotent | app.jsx:155 | rounding twice is the same as rounding once |
| JsMath.CeilQuotient | app.jsx:271 | `Math.ceil(gap / flow)` is the least whole count m ≥ 1 with m·flow ≥ gap |
| Categories.DefaultsAreWellFormed | app.jsx:18-40 | the default main and savings percentages each total 100; the initial accounts are exactly the seven account records, all zero |
| Categories.Max | app.jsx:417 | `Math.max`: an upper bound that is one of its arguments |
| Categories.Min | app.jsx:450 | `Math.min`: a lower bound that is one of its arguments |
| Categories.MainSum | app.jsx:136 | definition: `mainTotal`, the sum of the four main percentages |
| Categories.SubSum | app.jsx:137 | definition: `savingsTotal`, the sum of the four savings percentages |
| Income.MonthlyIncome | app.jsx:167-171 | none exactly in irregular mode; otherwise the paycheck times the paychecks per month, positive exactly when the paycheck is |
| Income.ExpectedMonthlyNet | app.jsx:173-176 | billing less 33% tax when deducting, billing otherwise; positive exactly when billing is positive |
| Income.ForecastIncome | app.jsx:205-210 | definition: the regular monthly income, or the expected net billing for an irregular profile |
| Income.PlanningIncome | app.jsx:243-251 | the income used by goal tracking and the main optimiser: present exactly when the forecast's monthly income is positive, and then equal to it; in regular mode present exactly when the paycheck is positive |
| Allocation.Allocate | app.jsx:343-361 | a non-positive amount gives the empty breakdown with no net amount; otherwise net + tax = amount, tax is 33% exactly when withheld, each main share is net·pct/100, each savings share is the savings amount·pct/100, and the sums scale with the percentage totals |
| Allocation.MainShares | app.jsx:349-352 | every main category receives net·pct/100 |
| Allocation.SubShares | app.jsx:354-358 | every savings sub-category receives savings·pct/100 |
| Allocation.CalculateAllocations | app.jsx:343-361 | the loop version equals `Allocate` |
| Allocation.FillMain | app.jsx:349-352 | the main `forEach` equals `MainShares` |
| Allocation.FillSavings | app.jsx:354-358 | the savings `forEach` equals `SubShares` |
| Allocation.AllocationIsExact | app.jsx:346-358 | when both percentage maps total 100, the main shares add up to the net amount and the savings shares to the savings share |
| Allocation.AllocationExamples | app.jsx:343-361 | worked cases: 1000 without tax under the defaults, 1000 with tax, and 0 |
| Runway.TotalMonthlySpend | app.jsx:178-180 | definition: Fixed plus Flexible monthly spend, a missing record counting 0 |
| Runway.TotalBalance | app.jsx:182-184 | definition: Fixed plus Flexible balance, a missing record counting 0 |
| Runway.RunwayMonths | app.jsx:186-191 | none exactly when the operating spend is not positive; otherwise runway·spend = operating balance |
| Runway.RunwayWithRainyDay | app.jsx:193-198 | the same, with the rainy-day balance added to the balance |
| Runway.ReserveExtendsRunway | app.jsx:186-198 | the reserve runway is the runway plus rainy-day balance / spend, so it is never shorter when that balance is not negative |
| Runway.RunwayExample | app.jsx:186-191 | 1000 against 1000 of spend is one month; no spend gives none |
| Runway.NetMonthlyFlow | app.jsx:214-218 | definition: income times the Fixed and Flexible share, less the operating spend |
| Runway.ForecastRunway | app.jsx:201-236 | unknown exactly when spend or income is not positive; growing exactly when the net flow is ≥ 0; healthy exactly when the six-month gap is ≤ 0; otherwise the least month count covering the gap (`Unreachable` for a zero flow); declining months times the absolute flow equals the balance |
| Runway.ForecastExample | app.jsx:201-231 | 3000 a month at 65% against 1000 of spend grows by 950 and reaches the buffer in 7 months |
| Goals.Contribution | app.jsx:253-262 | definition: income times the main share, and for a savings sub-account times its sub-share too |
| Goals.MonthsToGoal | app.jsx:239-273 | unknown exactly for a missing or goal-less account, no positive income, or the Savings pool; done exactly when the gap is ≤ 0 (checked first); over budget exactly when the net contribution is ≤ 0; otherwise the least m ≥ 1 with m·net ≥ gap |
| Goals.DoneRegardlessOfRate | app.jsx:264-268 | a met goal stays done under any income and percentages |
| Goals.MonthsShrinkAsBalanceGrows | app.jsx:264-272 | adding to the balance never makes the estimate worse |
| Goals.CeilMonotone | app.jsx:271 | `Math.ceil` preserves order |
| Goals.MonthsToGoalExamples | app.jsx:264-269 | a goal already reached is done; a 0% share with a gap is over budget |
| Goals.Progress | app.jsx:282 | definition: the balance as a percentage of the goal |
| Goals.UnmetMeansBelowGoal | app.jsx:281-283 | progress below 100 is exactly a balance below the goal |
| Goals.EntryFor | app.jsx:285-294 | definition: the dashboard entry of a goal account: key, balance, goal, remaining amount, progress and months estimate |
| Goals.Candidates | app.jsx:279-317 | definition: the entries pushed for the accounts, in scan order, that have a positive goal and progress below 100 |
| Goals.CandidatesAreUnmetGoals | app.jsx:279-317 | the pushed entries are exactly the accounts in the scanned keys with a positive goal and progress below 100 |
| Goals.CandidatesRanksIncrease | app.jsx:279-317 | entries come out in scan order: fixed, flexible, then the four savings keys |
| Goals.SortByProgress | app.jsx:319 | definition: stable insertion sort by non-increasing progress |
| Goals.InsertPermutes | app.jsx:319 | insertion adds the entry and keeps everything else |
| Goals.InsertKeepsOrder | app.jsx:319 | inserting an entry that came later in scan order keeps the list ordered by progress, ties in scan order |
| Goals.SortPermutes | app.jsx:319 | sorting is a permutation |
| Goals.SortByProgressSorts | app.jsx:319 | the stable sort orders by non-increasing progress, ties in scan order, and is a permutation |
| Goals.ActiveGoals | app.jsx:276-320 | definition: `getActiveGoals`, the candidates sorted, at most the first four |
| Goals.SortedCandidatesAreUnmetGoals | app.jsx:276-319 | the sorted list is ordered and holds exactly the unmet goals |
| Goals.ActiveGoalsAreUnmetGoals | app.jsx:276-320 | at most four entries, ordered, each an unmet goal with its own figures |
| Goals.ActiveGoalsOmitOnlyBehindFour | app.jsx:319 | an unmet goal is missing only when four entries are shown, each with at least its progress |
| Goals.GetActiveGoals | app.jsx:276-320 | the push loops, sort and slice equal `ActiveGoals` |
| Goals.PushUnmetGoals | app.jsx:279-317 | one `forEach` extends the candidates by the next keys |
| Goals.GoalTotal | app.jsx:326-334 | definition: the goals of the listed accounts added up, a missing record counting 0 |
| Goals.BalanceTotal | app.jsx:326-334 | definition: the balances of the listed accounts added up, a missing record counting 0 |
| Goals.Summary | app.jsx:322-341 | definition: `getGoalSummary`, the goal and balance totals and the progress percentage |
| Goals.SummaryAddsGoalAccounts | app.jsx:322-341 | the totals add the six goal accounts (not Charity); progress·goal = balance·100 when the goal total is positive, 0 otherwise |
| Goals.GetGoalSummary | app.jsx:322-341 | the accumulating loops equal `Summary` |
| Optimizer.Need | app.jsx:424-427 | definition: a twelfth of the goal gap plus the monthly spend |
| Optimizer.NeedCoversSpend | app.jsx:425-427 | an account's need is at least its spend, and equals it exactly when the goal is met |
| Optimizer.SavingsNeed | app.jsx:434-441 | definition: `totalSavingsNeed`, the needs of the four savings sub-accounts added up |
| Optimizer.TotalNeed | app.jsx:420-442 | definition: `totalNeed`, the Fixed and Flexible needs plus the savings need |
| Optimizer.SavingsKeysFollowSubOrder | app.jsx:486 | the savings keys are the sub-categories in display order |
| Optimizer.SavingsNeedAddsAccounts | app.jsx:434-442 | the savings need is the sum of the four sub-account needs |
| Optimizer.TotalNeedAddsAccounts | app.jsx:420-442 | the total need is Fixed + Flexible + the savings need |
| Optimizer.SumNeeds | app.jsx:420-442 | the accumulating loop equals the summed needs |
| Optimizer.ClampedShare | app.jsx:449-450 | definition: the need's proportional share of the available percent, clamped to 0 and the available percent |
| Optimizer.NeedPercent | app.jsx:449-450 | a multiple of five, non-negative when the available share is |
| Optimizer.NeedPercentRoundsShare | app.jsx:449-450 | within 2.5 of the clamped proportional share, which lies in [0, available] |
| Optimizer.MinOperatingPercent | app.jsx:454-457 | a non-negative multiple of five, zero without spend |
| Optimizer.MinOperatingPercentCoversSpend | app.jsx:454-457 | with spend, the least multiple of five whose share of income covers it |
| Optimizer.NeedSplit | app.jsx:446-460 | Fixed and Flexible reach their spend floors; all are multiples of five and non-negative |
| Optimizer.NeedSplitFollowsNeeds | app.jsx:446-460 | each operating percent is the larger of its rounded share and its floor, so it is raised only when below the floor; savings is its rounded share |
| Optimizer.BalancedSplit | app.jsx:461-466 | about 50% and 20% of the available share, rounded to five, with savings taking the rest so the three make the available share |
| Optimizer.Normalize | app.jsx:468-474 | only savings changes; a split already at the available total is kept; a split that misses it has its savings set to max(0, available − fixed − flexible), whatever the sign of the old savings |
| Optimizer.Proposal | app.jsx:446-466 | definition: the need split when the total need is positive, the balanced split otherwise, before normalisation |
| Optimizer.Suggest | app.jsx:417-474 | definition: the charity floor, the need or balanced split, then the normalisation into savings |
| Optimizer.MainPercents | app.jsx:444 | the suggestion map holds charity and the three split values |
| Optimizer.OptimalMain | app.jsx:406-415 | no suggestion exactly when there is no positive planning income |
| Optimizer.SuggestKeepsCharityFloor | app.jsx:417-418 | charity is max(current, 10) |
| Optimizer.SuggestNeedBranch | app.jsx:446-474 | with need: the spend floors hold, and savings = max(0, available − fixed − flexible); the four total 100 exactly when fixed + flexible ≤ available |
| Optimizer.SuggestBalancedBranch | app.jsx:461-474 | without need: the 50/20 split rounded to five, and the four total exactly 100 |
| Optimizer.OptimalMainIsSuggest | app.jsx:406-480 | the optimiser feeds its income, the three needs, the two spends and the current charity to `Suggest` |
| Optimizer.OptimalMainCharity | app.jsx:417 | a suggestion's charity is max(current, 10) |
| Optimizer.OptimalMainIsStable | app.jsx:533-537 | the suggestion depends on the current percentages only through charity, so re-running it on its own output changes nothing |
| Optimizer.CalculateOptimalAllocations | app.jsx:406-480 | the loop version equals `OptimalMain` |
| Optimizer.ProposeSplit | app.jsx:446-466 | the in-place patching equals `Proposal` |
| Optimizer.NormalizeSplit | app.jsx:468-474 | the in-place update equals `Normalize` |
| Optimizer.MaxKeyOfIsLastMaximum | app.jsx:505-507 | the `reduce` picks a maximal key, and every later key holds strictly less |
| Optimizer.SubIndex | app.jsx:16 | the position of a sub-category in the display order: the display order holds it there |
| Optimizer.MaxKey | app.jsx:505-507 | definition: the key the `reduce` over the display order picks |
| Optimizer.MaxKeyIsLastMaximum | app.jsx:505-507 | the picked key holds the maximum and is the last key that does |
| Optimizer.RoundedShares | app.jsx:497-500 | definition: each sub-category's need as a clamped percentage of the total, rounded to five |
| Optimizer.SplitSavings | app.jsx:496-514 | definition: the rounded shares with the remainder added when the total need is positive, four quarters otherwise |
| Optimizer.AddRemainder | app.jsx:502-509 | definition: when the values total more than 0 but not 100, the key `MaxKey` picks takes up 100 minus the total |
| Optimizer.SubSumUpdate | app.jsx:508 | changing one value changes the total by the same amount |
| Optimizer.RoundedSharesBounds | app.jsx:497-500 | each rounded share is non-negative and within 2.5 of its clamped share |
| Optimizer.RawSharesSumTo100 | app.jsx:498 | the unrounded shares add up to 100 |
| Optimizer.RoundedShareAtLeast25 | app.jsx:499 | a share of at least 25 rounds to at least 25 |
| Optimizer.RoundedSharesArePositive | app.jsx:502-503 | with positive total need, the rounded shares total more than 0, so the `savingsSum > 0` guard always holds |
| Optimizer.SplitSavingsAdjustsMaxKey | app.jsx:502-509 | only the picked key changes, by 100 − sum |
| Optimizer.SplitSavingsSumsTo100 | app.jsx:494-514 | the suggestion always totals 100 |
| Optimizer.SplitSavingsNonNegative | app.jsx:494-514 | with non-negative needs every suggested percent is non-negative |
| Optimizer.EvenSavingsAreQuarters | app.jsx:511-513 | the fallback gives each sub-category 25 |
| Optimizer.ShareIsUnclamped | app.jsx:499 | a share of a non-negative need never hits the clamps |
| Optimizer.OptimalSavings | app.jsx:482-517 | definition: `calculateOptimalSavingsAllocations`, the four sub-account needs split into percentages |
| Optimizer.OptimalSavingsSpreadsSavingsNeed | app.jsx:482-517 | no savings need gives four quarters; the suggestion totals 100 |
| Optimizer.OptimalSavingsNonNegative | app.jsx:482-517 | with non-negative spends, every suggested percent is non-negative |
| Optimizer.SplitSavingsSingleNeed | app.jsx:496-509 | a need in Rainy Day alone gives it 100 |
| Optimizer.ValueSumIsSubSum | app.jsx:502 | `Object.values(...).reduce` over the four keys is their sum |
| Optimizer.SubMapsAgree | app.jsx:494-500 | two maps agreeing on the four keys are equal |
| Optimizer.CalculateOptimalSavingsAllocations | app.jsx:482-517 | the loop version equals `OptimalSavings` |
| Optimizer.CollectSavingsNeeds | app.jsx:486-492 | each sub-category's need is recorded, and the running total is the savings need |
| Optimizer.RoundSavingsShares | app.jsx:497-500 | each key gets its rounded clamped share |
| Optimizer.DistributeRemainder | app.jsx:502-509 | the remainder step equals `AddRemainder` |
| Optimizer.SumValues | app.jsx:502 | the reduce equals the four-key sum |
| Optimizer.FindMaxKey | app.jsx:505-507 | the reduce equals `MaxKey` |
| Optimizer.EvenSplit | app.jsx:511-513 | the fallback loop gives four quarters |
| Ledger.AccountKeysAreAccounts | app.jsx:32-40 | the seven record keys are exactly the non-pool keys |
| Ledger.Credits | app.jsx:364 | definition: the result carries a net amount that is not zero, without which nothing is credited |
| Ledger.CreditOf | app.jsx:371-378 | definition: the main or savings amount for the key, 0 when absent |
| Ledger.Credit | app.jsx:369-379 | a credited record's balance grows by its share; goal and spend are kept |
| Ledger.Credited | app.jsx:363-382 | no change without a non-zero net amount; otherwise it adds the seven records to the keys |
| Ledger.CreditedChangesOnlyBalances | app.jsx:363-382 | each of the seven records gains exactly its share; goals and spends are untouched; other entries are left alone |
| Ledger.AllocationCreditsPositiveAmounts | app.jsx:343-364 | an allocation is credited exactly when the amount was positive |
| Ledger.CreditedTotalGrowsByNet | app.jsx:343-382 | with both percentage maps at 100, the seven balances grow by the net amount in total |
| Ledger.CreditedKeepsAccounts | app.jsx:366-380 | crediting keeps all seven records present |
| Ledger.WithMonthlySpend | app.jsx:560-565 | sets the spend, keeps the balance and goal, and leaves other records alone |
| Ledger.WithMonthlySpendOverwrites | app.jsx:560-565 | the last update wins |
| Ledger.CreditEach | app.jsx:368-380 | one `forEach` credits each of its keys and keeps the rest |
| Ledger.CreditAccounts | app.jsx:363-382 | the two passes equal `Credited` |
| Ledger.PassesAreDistinct | app.jsx:368-375 | neither pass lists a key twice |
| Ledger.CreditInTwoPasses | app.jsx:366-380 | the main pass followed by the savings pass is `Credited` |
| Ledger.PassesCoverAccounts | app.jsx:368-375 | the two passes together cover exactly the seven records, and do not overlap |
| Ledger.BudgetState.constructor | app.jsx:18-50 | the initial state: zero accounts, default percentages, regular income with no paycheck |
| Ledger.BudgetState.AddToBalances | app.jsx:363-389 | the accounts become `Credited(old, r)`; nothing else changes |
| Ledger.BudgetState.AddPaycheck | app.jsx:391-403 | credits the allocation of the amount under the current percentages |
| Ledger.BudgetState.ClearAllData | app.jsx:545-558 | the seven zero records; the paycheck and the billing are cleared; the percentages are kept |
| Ledger.BudgetState.UpdateMonthlySpend | app.jsx:560-565 | the accounts become `WithMonthlySpend(old, key, value)` |
| Ledger.BudgetState.ApplyOptimalAllocations | app.jsx:533-538 | the main percentages become the suggestion when there is one, and are unchanged otherwise |
| Ledger.BudgetState.ApplyOptimalSavingsAllocations | app.jsx:540-543 | the savings percentages become the suggestion, which totals 100 |
| Ledger.BudgetState.ResetToDefaults | app.jsx:1446-1447 | both percentage maps return to the defaults, each totalling 100 |

## Left out

- Persistence is not modelled: the storage load and save effects (app.jsx:81-134) are asynchronous I/O against an external store.
- Currency formatting (app.jsx:139-153) is not modelled; it calls `Intl.NumberFormat`.
- The message strings are not modelled. The forecast months and the months to goal are kept as tags and numbers.
- The markup and the UI flags are not modelled: `activeTab`, `showResults`, `showSuccess`, `showClearConfirm`, `lastAdded` and `isLoading`. The handlers that clear text fields (`setPaycheck('')`) are not modelled either.
- Text input parsing (`parseFloat(...) || 0`) is not modelled. Inputs are taken as numbers already.
- Money is exact `real`, so IEEE-754 rounding drift is not modelled. The `!==` comparisons at app.jsx:470 and app.jsx:503 become exact equality.
- `getNetPaycheck` and `getFreelanceNetPaycheck` (app.jsx:157-165) are not modelled; they are display values.
- `totalNeedPercent` (app.jsx:478) is display-only. `Optimizer.OptimalMain` returns only the main percentages.
- Income.IncomeSettings: the number of paychecks per month is limited to 1–4, the only values the UI offers (app.jsx:827). The freelance paycheck field is not part of the settings, because the allocation takes its amount as a parameter.
- Goals.GoalEntry: the display names and the `type` tag are not modelled. An entry keeps its key, balance, goal, remaining amount, progress and months estimate.
- Goals.MonthsToGoal: `isSavings` is derived from the key. Every caller passes `true` for savings keys and `false` for main keys.
- Ledger.BudgetState.UpdateMonthlySpend: the UI calls it only for Fixed and Flexible, whose records always exist. On a key with no record, the model creates a zero balance and goal. JavaScript would create a record holding only `monthlySpend`.
- Allocation.Allocate: the tax rate is fixed at 33%. `calculateAllocations` takes it as a parameter that defaults to 33%, and no caller passes another rate.
- Ledger.Credited: on a key with no record, the model creates a record with the credit as balance and a zero goal and spend. JavaScript would create a record holding only `balance`. The case does not arise while all seven records exist, which `Ledger.BudgetState.Valid` keeps.
- Ledger.BudgetState.AddToBalances: the success banner and `lastAdded` are not modelled.
