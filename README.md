# Budget app ledgers, in Dafny

A model of the personal budgeting application (a Next.js front end over a Firestore
document store, amounts in whole Kenyan shillings) and proofs about it. It covers:

- the **chama ledger**, one append-only list of contributions and payouts split by
  `chamaId`. The entries with no chama form the *unallocated pool*. The model covers
  the balance folds, allocation from the pool to a chama, and chama creation.
- the **savings** and **unallocated ledgers**, which hold deposits and withdrawals, and
  the guarded withdrawals the Savings and Differences tabs perform.
- the three **one-off migrations**: the savings backfill, the budget-surplus backfill
  and the hard-coded chama correction.
- the **budget page** (monthly budget documents keyed by month) and the two
  **add-transaction forms**.
- the **analysis pages**: single-month figures and the all-months summary.
- the three **chart helpers**: payment-method counts, top categories and daily spend.

The user's part of the document store is the class `Store.Store`. It holds one
sequence per collection: `addDoc` appends to it, `setDoc` on a budget replaces or adds
by month, and `updateDoc` marks a transaction adjusted. A counter hands out document ids.
Each handler is a method over that store plus the component's form state. Each method's
contract ties the new state to a specification function, such as `CheckAllocation`,
`AllocationEntries`, `CheckWithdrawal`, `MigrateOne` or `SurplusDeposits`. The
properties the application relies on are lemmas about those functions:

- an allocation moves money and conserves the total;
- a guarded withdrawal never drives a balance negative;
- a migration's effect on the balances, and what a second run of it does;
- each chart helper's sums add up to the whole.

Files, one module each:

- Shared:
  - `wrappers.dfy`: `Option` and `Result`.
  - `text.dfy`: JavaScript `trim`, `toLowerCase`/`includes`, string order, string sort.
  - `records.dfy`: the document types and the amount folds.
  - `store.dfy`: the document store.
  - `grouping.dfy`: dictionary-accumulation folds shared by the charts.
- Ledgers:
  - `chama_ledger.dfy`: chama balances, allocation and chama creation.
  - `fund_ledger.dfy`: savings and unallocated balances, and the withdrawal guard.
- Components and pages: `chamas_tab.dfy`, `allocate_funds.dfy`, `create_chama.dfy`,
  `savings_tab.dfy`, `differences_tab.dfy`, `budgets.dfy`, `tx_form.dfy`,
  `transactions_page.dfy`, `dashboard.dfy`, `analysis.dfy`, `monthly_analysis.dfy`.
- Migrations: `migrate_savings.dfy`, `migrate_unallocated.dfy`, `migrate_chama.dfy`.
- Charts: `payment_methods.dfy`, `top_categories.dfy`, `daily_spend.dfy`.

Conventions:

- A field a document lacks reads as `""` (strings) or `0` (numbers), as the readers that
  guard it with `x || 0`, `x ?? ""` or `!x` treat it. The chama migration's read of `date`
  has no such guard (see "## Left out").
- A numeric form input is an `Option<int>`: `None` is an empty or non-numeric entry.
- Time is a parameter (`now`, `date`), read once per operation.

## Model

| member | source | states |
|---|---|---|
| Chamas.LedgerForView | components/ChamasTab.tsx:118-120 | the entries shown are exactly the ledger entries whose `chamaId` is the selected partition, never more than the ledger holds |
| Chamas.LedgerForViewConcat | components/ChamasTab.tsx:118-120 | the filter of `x + y` is the filter of `x` followed by the filter of `y`, so the kept entries stay in ledger order |
| Chamas.LedgerForViewSingle | components/ChamasTab.tsx:118-120 | one entry is kept exactly once when its `chamaId` is the partition and dropped otherwise, so duplicates are neither merged nor added |
| Chamas.BalanceForAppend | components/ChamasTab.tsx:122-131 | appending one entry changes only the balance of that entry's own partition: up by a contribution's amount, down by any other kind's amount |
| Chamas.BalanceIsContributedMinusDrawn | components/ChamasTab.tsx:122-131 | `balanceFor(p)` equals the contributions of `p` minus every other entry of `p` (an independent reference); an empty ledger gives 0 |
| Chamas.NonContributionLowers | components/ChamasTab.tsx:126-129 | there is no third kind: any entry that is not a contribution, whatever its `type` string, lowers its partition |
| Chamas.NetAppend | components/ChamasTab.tsx:125-131 | the signed fold splits over concatenation |
| Chamas.SumBalancesAppend | components/ChamasTab.tsx:122-131 | summed over distinct partitions, an appended entry counts once if its partition is listed and not at all otherwise |
| Chamas.Conservation | components/ChamasTab.tsx:122-131 | summing `balanceFor` over distinct partitions that cover every entry gives the signed total of the whole ledger |
| Chamas.SumBalancesEmpty | components/ChamasTab.tsx:122-131 | an empty ledger has zero balance in every partition |
| Chamas.CheckAllocation | components/ChamasTab.tsx:141-155 | an allocation is admitted iff a chama is selected, the amount is a positive number and it does not exceed the unallocated balance; each refusal is characterised as an iff in the handler's order: no chama selected, else a missing or non-positive amount, else an amount above the pool |
| Chamas.AllocationEntries | components/ChamasTab.tsx:160-180 | the two documents written: a payout of `v` from the pool noted "Allocated to chama", then a contribution of `v` to the chosen chama carrying the user's note |
| Chamas.BalanceForAppendTwo | components/ChamasTab.tsx:160-180 | appending two entries moves each partition by the signed amounts of the entries booked on it |
| Chamas.AllocationMovesFunds | components/ChamasTab.tsx:160-180 | after an allocation the pool is `v` lower, the chosen chama is `v` higher, every other chama is unchanged |
| Chamas.AllocationPoolView | components/ChamasTab.tsx:160-180 | after an allocation the pool's entries are the old ones followed by exactly the payout; the contribution does not show in the pool |
| Chamas.AllocationConservesTotal | components/ChamasTab.tsx:160-180 | an allocation leaves the signed total of the ledger unchanged |
| Chamas.GuardedAllocationKeepsPoolNonNegative | components/ChamasTab.tsx:152-155 | whatever the guard admits leaves the pool at or above 0; allocating exactly the pool's balance leaves 0 |
| Chamas.AllocationScenario | components/ChamasTab.tsx:139-189 | with 5000 unallocated, allocating 3000 to a chama at 0 leaves 2000 in the pool and 3000 in the chama |
| Chamas.NewChama | components/ChamasTab.tsx:197-213 | a chama is created iff the name is not empty or whitespace only; it carries the trimmed name (non-empty, no surrounding whitespace), status active, the trimmed note, the clock reading and the id |
| ChamasTab.ChamaTab.View | components/ChamasTab.tsx:118-120 | the view holds exactly the store's entries of the selected partition and no more entries than the ledger; it is `LedgerForView`, whose order and multiplicity `LedgerForViewConcat` and `LedgerForViewSingle` fix |
| ChamasTab.ChamaTab.SelectUnallocated | components/ChamasTab.tsx:235-237 | clicking the Unallocated card selects the pool, whose entries the view then shows |
| ChamasTab.ChamaTab.SelectChama | components/ChamasTab.tsx:250-252 | clicking a chama's card selects it by its id, and the view then shows that chama's entries |
| ChamasTab.ChamaTab.HandleAllocate | components/ChamasTab.tsx:139-189 | outcome is `CheckAllocation` of the inputs; on success the ledger gains exactly `AllocationEntries`, the pool's view gains exactly the payout, the pool drops by `v` and stays at or above 0, the signed total is unchanged, and amount and note are cleared; on refusal nothing changes |
| ChamasTab.ChamaTab.HandleCreateChama | components/ChamasTab.tsx:195-222 | the chama written is `NewChama` of the inputs with the next store id; a blank name writes nothing and keeps the inputs; a chama is appended, the id counter advances and both inputs clear |
| AllocateChamaFunds.AllocateFunds.Select | components/special_functions/AllocateChamaFunds.tsx:162-166 | the empty option deselects (`value \|\| null`), so the allocation is then refused for want of a chama; any other value selects that chama |
| AllocateChamaFunds.AllocateFunds.HandleAllocate | components/special_functions/AllocateChamaFunds.tsx:102-152 | the same guard and writes as the Chamas tab: outcome is `CheckAllocation`; success appends exactly the two allocation entries (every earlier entry kept), conserves the signed total and clears amount and note; refusal changes nothing |
| CreateChama.CreateChamaForm.HandleCreateChama | components/special_functions/CreateChama.tsx:40-67 | nothing is created iff the name is whitespace only; otherwise `NewChama` of the inputs is appended and both inputs clear |
| FundLedger.TotalOfKindAppend | components/SavingsTab.tsx:72-80 | the per-kind sums split over concatenation |
| FundLedger.AvailableAppend | components/SavingsTab.tsx:72-80 | the available balance (deposits minus withdrawals) splits over concatenation |
| FundLedger.AvailableIsReplay | components/SavingsTab.tsx:72-80 | deposits-minus-withdrawals equals replaying the ledger entry by entry from the front (an independent reference) |
| FundLedger.AppendOne | components/SavingsTab.tsx:72-80 | one more entry moves the balance by its effect (+ deposit, − withdrawal, 0 otherwise) and leaves the other kind's total unchanged |
| FundLedger.CheckWithdrawal | components/SavingsTab.tsx:84-91 | a withdrawal is admitted iff the amount is a positive number no larger than the available balance; "invalid amount" exactly for an empty, zero or negative amount |
| FundLedger.GuardedWithdrawal | components/SavingsTab.tsx:84-105 | an admitted withdrawal lowers the balance by its amount to a value at or above 0, withdrawing the whole balance leaves exactly 0, and deposits are unchanged |
| FundLedger.NonNegativeStaysNonNegative | components/DifferencesTab.tsx:78-99 | from a non-negative balance, a non-negative deposit or an admitted withdrawal keeps it non-negative |
| SavingsTab.SavingsWithdrawal | components/SavingsTab.tsx:98-105 | the savings withdrawal document: kind withdrawal, the amount, the note, source "manual", no budget month, effect −amount |
| SavingsTab.SavingsTabState.HandleWithdraw | components/SavingsTab.tsx:83-115 | outcome is `CheckWithdrawal` against the savings balance; on success exactly `SavingsWithdrawal` is appended, the balance drops by the amount and stays at or above 0, and the inputs clear; on refusal nothing changes |
| DifferencesTab.UnallocatedWithdrawal | components/DifferencesTab.tsx:91-99 | the unallocated withdrawal document: kind withdrawal, the amount, the note, source "manual-withdrawal", budget month `""` |
| DifferencesTab.DifferencesTabState.HandleWithdraw | components/DifferencesTab.tsx:77-108 | outcome is `CheckWithdrawal` against the unallocated balance; on success exactly `UnallocatedWithdrawal` is appended, the balance drops by the amount and stays at or above 0, and the inputs clear; on refusal nothing changes |
| MigrateSavings.BackfillDeposit | lib/migrateSavings.ts:10-19 | the deposit written for one savings transaction: its amount, its id as related transaction, source "historical-migration" |
| MigrateSavings.BackfillDeposits | lib/migrateSavings.ts:8-19 | one deposit per selected transaction, in order |
| MigrateSavings.MigrateSavingsTransactionsToLedger | lib/migrateSavings.ts:8-21 | appends the deposits of exactly the transactions whose category is "Savings" and returns their number, which is also how much the ledger grew |
| MigrateSavings.BackfillTotal | lib/migrateSavings.ts:10-19 | the backfilled deposits add up to the selected transactions' amounts and contain no withdrawal |
| MigrateSavings.BackfillRaisesSavings | lib/migrateSavings.ts:8-19 | the backfill raises the savings balance by the sum of the "Savings" transactions |
| MigrateSavings.OtherCategoryIgnored | lib/migrateSavings.ts:8 | a transaction of any other category adds nothing to the backfill |
| MigrateSavings.RerunDoubles | lib/migrateSavings.ts:8-21 | the job has no guard: running it twice raises the balance by twice the savings total |
| MigrateUnallocated.SurplusDeposit | lib/migrateUnallocated.ts:18-26 | the deposit for a budget: its surplus (debited minus planned), its month, source "historical-migration" |
| MigrateUnallocated.SurplusDeposits | lib/migrateUnallocated.ts:10-29 | at most one deposit per budget, each a deposit of a positive amount |
| MigrateUnallocated.SurplusDepositsCover | lib/migrateUnallocated.ts:12-26 | every budget with a positive surplus gets its deposit and every deposit comes from such a budget |
| MigrateUnallocated.SurplusDepositsStep | lib/migrateUnallocated.ts:17-27 | one more budget appends its deposit exactly when its surplus is positive |
| MigrateUnallocated.MigrateUnallocatedForUser | lib/migrateUnallocated.ts:8-30 | appends exactly `SurplusDeposits` of the stored budgets, in order, and returns their number |
| MigrateUnallocated.SurplusTotals | lib/migrateUnallocated.ts:8-30 | the count returned is the number of budgets with positive surplus and the deposits add up to the positive surpluses (never negative) |
| MigrateUnallocated.SurplusNeverLowers | lib/migrateUnallocated.ts:10-29 | the job raises the unallocated balance by the positive surpluses, never lowers it, and a re-run raises it by them again |
| MigrateUnallocated.SurplusScenario | lib/migrateUnallocated.ts:12-26 | 45000 debited against 40000 planned gives one 5000 deposit for that month; 38000 against 40000 gives none |
| MigrateChama.MigrationContribution | lib/migrateChama.ts:59-70 | the contribution written: the configured chama, the migrated amount, the transaction's date and budget month, source "migration" |
| MigrateChama.MigrationReversal | lib/migrateChama.ts:76-87 | the savings withdrawal written: the reversed amount, related to the transaction, source "migration-reversal" |
| MigrateChama.ExcessTransaction | lib/migrateChama.ts:92-106 | the excess transaction: the excess amount, category "Miscellaneous", month "2026-01", related to the original, not adjusted |
| MigrateChama.MigrateItem | lib/migrateChama.ts:37-117 | one iteration leaves the store as `MigrateOne` says: contribution, reversal, excess transaction when positive, then the original marked adjusted |
| MigrateChama.MigrateChamaSavings | lib/migrateChama.ts:37-117 | the whole run leaves the store as `MigrateAll` of the configured items says |
| MigrateChama.MissingItemWritesNothing | lib/migrateChama.ts:41-44 | an id not in the store causes no write at all |
| MigrateChama.FoundItemLedgers | lib/migrateChama.ts:59-87 | for a found item: one contribution and one reversal are appended, the chama balance rises by the migrated amount, every other partition is unchanged, savings fall by the reversed amount and savings deposits are unchanged |
| MigrateChama.FoundItemTransactions | lib/migrateChama.ts:92-114 | for a found item the original keeps its place and every field except the adjustment flag and note, no other transaction changes, and the excess transaction is appended iff the excess is positive |
| MigrateChama.ConfigConsistent | lib/migrateChama.ts:18-31 | in both configured items the reversed savings amount is the migrated amount plus a non-negative excess |
| MigrateChama.FoundStaysFound | lib/migrateChama.ts:92-114 | a transaction found before an iteration is found at the same place after it |
| MigrateChama.MissingStaysMissing | lib/migrateChama.ts:92-106 | an id that is missing, and is not a store-assigned id, stays missing after an iteration |
| MigrateChama.FoundAfterRun | lib/migrateChama.ts:37-117 | a present transaction is still present after a whole run |
| MigrateChama.AllFoundAfterRun | lib/migrateChama.ts:37-117 | if every configured transaction is present, they all are after a run |
| MigrateChama.RunEffect | lib/migrateChama.ts:37-117 | with every configured transaction present, a run raises the chama by the migrated amounts and lowers savings by the reversed amounts |
| MigrateChama.RerunRepeatsCorrection | lib/migrateChama.ts:16-117 | one run moves 6000 into the chama and takes 6015 from savings; a second run repeats it (12000 and 12030) since nothing marks the job done |
| Analysis.LoadBudget | app/analysis/page.tsx:70-86 | a stored budget gives its rows, total and debited total; a missing one gives no rows and zeros |
| Analysis.AmountSpentIsNetOutflow | app/analysis/page.tsx:101-109 | net spending equals the sum with "Money Recovered" amounts negated (an independent reference), and the plain sum exceeds it by twice the recovered money |
| Analysis.SpendingAfterOneMore | app/analysis/page.tsx:101-109 | one more transaction moves net spending by its amount: down for recovered money, up otherwise |
| Analysis.FindCategory | app/analysis/page.tsx:127-129 | the first row with exactly that name, or none when no row has it |
| Analysis.PlannedSavings | app/analysis/page.tsx:127-129 | the planned amount of the first row named "Savings", or 0 when there is none |
| Analysis.ClampAtZero | app/analysis/page.tsx:131 | `Math.max(x, 0)`: at least 0 and at least `x`, equal to `x` when `x` is non-negative |
| Analysis.ToBeSaved | app/analysis/page.tsx:123-131 | still-to-save is planned savings minus saved so far, or 0 once savings reach the plan; never negative |
| Analysis.RemainingBudget | app/analysis/page.tsx:134 | remaining budget is the plan minus net spending, or 0 once overspent; never negative |
| Analysis.SpentExcludingSavings | app/analysis/page.tsx:138 | net spending minus savings, floored at 0 |
| Analysis.DebitedBalanceMayBeNegative | app/analysis/page.tsx:111 | the balance against the debited total is not clamped: 100 debited and 500 spent shows −400 while the remaining budget shows 500 |
| Analysis.ColorFor | app/analysis/page.tsx:152-160 | green iff the remaining budget is above 10000, red iff below 1000, orange iff between 1000 and 10000 inclusive |
| Analysis.CategoryBalance | app/analysis/page.tsx:303-316 | a row tagged "recovered" shows plan plus actual; any other row shows plan minus actual, where actual matches the exact name |
| Analysis.RecoveredRowAddsRecoveries | app/analysis/page.tsx:307-316 | the "Money Recovered" row is tagged, whatever its letter case, and its balance is its plan plus all recovered money |
| Analysis.RecoveredScenario | app/analysis/page.tsx:101-109 | a 2000 recovery against a plan of 0 shows a row balance of 2000 and net spending of −2000 |
| Records.SumAmountsAppend | app/analysis/page.tsx:101-103 | the amount fold splits over concatenation |
| Records.WithCategory | app/analysis/page.tsx:303-305 | the filter keeps exactly the transactions of that category |
| Records.WithoutCategory | app/analysis/page.tsx:101-103 | the filter keeps exactly the transactions of any other category |
| Records.InMonth | app/analysis/page.tsx:90-92 | the month query keeps exactly the transactions of that budget month |
| Records.InMonthConcat | app/transactions/page.tsx:165-168 | the month filter of `x + y` is the filter of `x` followed by the filter of `y`, so the kept transactions stay in list order |
| Records.InMonthSingle | app/transactions/page.tsx:165-168 | one transaction is kept exactly once when its `budgetMonth` is the month and dropped otherwise |
| Records.CategorySplit | app/analysis/page.tsx:101-107 | outflows plus recoveries add up to all amounts: the category split loses nothing |
| MonthlyAnalysis.TotalSpentIsMonthSpending | app/monthly-analysis/page.tsx:59-71 | the summary's figure for a month equals the single-month page's net spending over that month's transactions |
| MonthlyAnalysis.MonthTotalsAppend | app/monthly-analysis/page.tsx:61-68 | both month folds split over concatenation |
| MonthlyAnalysis.OtherMonthIgnored | app/monthly-analysis/page.tsx:62-67 | a transaction of another month leaves the figure unchanged, wherever it sits |
| MonthlyAnalysis.RowFor | app/monthly-analysis/page.tsx:99-104 | a row shows the planned total recomputed from the rows, the month's net spending, and their difference as balance |
| MonthlyAnalysis.StoredTotalIgnored | app/monthly-analysis/page.tsx:99-102 | the stored `total` plays no part: a row depends on the category amounts only |
| MonthlyAnalysis.SavedBudgetRowAgrees | app/budgets/page.tsx:101-107 | for a budget the budget page saved, the stored total equals the summary's recomputed total |
| MonthlyAnalysis.InsertByMonthSpec | app/monthly-analysis/page.tsx:97 | inserting into a newest-first list keeps it newest-first and adds exactly that budget |
| MonthlyAnalysis.SortNewestFirst | app/monthly-analysis/page.tsx:97 | the sort yields the same budgets (a permutation), latest month first |
| MonthlyAnalysis.MonthlyRows | app/monthly-analysis/page.tsx:96-104 | one row per budget, no month followed by a later one |
| MonthlyAnalysis.MonthlyRowsCover | app/monthly-analysis/page.tsx:96-104 | every budget has its row and every row belongs to some budget |
| MonthlyAnalysis.OverspentRowIsNegative | app/monthly-analysis/page.tsx:104 | spending 1500 against a recomputed plan of 1000 gives a balance of −500, even though the stored total is 5000 |
| Store.PutBudget | app/budgets/page.tsx:101-107 | `setDoc` by month: the new document is present and every document of another month is kept |
| Store.PutThenFind | app/budgets/page.tsx:101-107 | reading a month back after `setDoc` gives the document written; other months read as before |
| Store.PutBudgetShape | app/budgets/page.tsx:101-107 | `setDoc` overwrites the month's document in place, or appends when the month is new |
| Store.PutKeepsUnique | app/budgets/page.tsx:101-107 | `setDoc` keeps months unique |
| Store.FindBudget | app/budgets/page.tsx:65-68 | the document found has the requested month; none is found only when no document has it |
| Budgets.DefaultRows | app/budgets/page.tsx:14-26 | eleven default rows, in order, with empty amounts and notes |
| Budgets.CheckSave | app/budgets/page.tsx:87-107 | a save is refused for a missing month, a missing debited total or any empty amount; then for a declined confirmation; otherwise the document holds the rows, their total, the debited total, and is not closed |
| Budgets.DefaultRowsNotSavable | app/budgets/page.tsx:78-94 | a month started from the defaults cannot be saved until every amount is filled |
| Budgets.PlannedTotalUpdate | app/budgets/page.tsx:45-48 | replacing one row changes the total by the difference of that row's amounts |
| Budgets.BudgetForm.HandleLoadMonth | app/budgets/page.tsx:57-85 | an existing month shows its stored rows and its debited total when that is not 0, and becomes read-only; a new month starts from the default rows with an empty debited total |
| Budgets.BudgetForm.HandleSave | app/budgets/page.tsx:87-111 | outcome is `CheckSave`; on success the store holds the document under its month (read back unchanged) and the month becomes read-only; a refusal writes nothing |
| Budgets.BudgetForm.SetTotalDebited | app/budgets/page.tsx:141-143 | the debited input is ignored once the month exists |
| Budgets.BudgetForm.SetAmount | app/budgets/page.tsx:177-180 | editing one amount changes that row only and moves the total by the difference |
| Budgets.BudgetForm.SetNotes | app/budgets/page.tsx:189-192 | editing one note changes that row only and leaves the total unchanged |
| TransactionForm.ToTransaction | app/transactions/page.tsx:101-105 | the written transaction carries the form's fields, the parsed amount and the creation date, and nothing else |
| TransactionForm.FormRoundTrip | app/transactions/page.tsx:101-105 | nothing typed is lost: the written transaction gives the form back |
| TransactionForm.EmptyFormIncomplete | app/transactions/page.tsx:108-114 | a reset form (paid through MPESA) cannot be submitted |
| TransactionsPage.OptionsOfStoredBudget | app/transactions/page.tsx:63-79 | with months unique, the options are the row names of the chosen month's budget, and none without a budget |
| TransactionsPage.FindInPrefix | app/transactions/page.tsx:68-74 | looking a month up in a list agrees with looking it up in all but the last document, unless only the last has it |
| TransactionsPage.FilteredTransactions | app/transactions/page.tsx:165-168 | no month chosen shows every transaction; otherwise exactly those of the chosen month, in list order and multiplicity by `InMonthConcat` and `InMonthSingle` |
| TransactionsPage.FilteredAppend | app/transactions/page.tsx:165-168 | a transaction appended to the list appears once at the end of the filtered list iff no month is chosen or it is of the chosen month; the filtered list is otherwise unchanged |
| TransactionsPage.TransactionsPageState.AddTransaction | app/transactions/page.tsx:94-122 | an incomplete form writes nothing; a complete one appends exactly the transaction built from it, touches no ledger or budget, resets the form and clears the category options |
| TransactionsPage.TransactionsPageState.LoadCategories | app/transactions/page.tsx:63-79 | with a month chosen, the options become the row names of the last budget under that month and the category clears; without one nothing happens |
| Dashboard.DashboardState.HandleOpen | app/page.tsx:86 | the form panel toggles |
| Dashboard.DashboardState.AddTransaction | app/page.tsx:88-113 | an incomplete form writes nothing; a complete one appends one transaction built from the form, shows it at the front of the local list, touches no ledger, resets and closes the form |
| PaymentMethods.GetPaymentMethodData | lib/charts/getPaymentMethodData.ts:18-34 | three buckets, MPESA, Cash and Bank Transfer in that order, each counting the transactions paid through exactly that method |
| PaymentMethods.UnknownMethodIgnored | lib/charts/getPaymentMethodData.ts:26-31 | a transaction with an empty or unknown method changes no bucket |
| PaymentMethods.BucketsBounded | lib/charts/getPaymentMethodData.ts:24-32 | the three counts add up to at most the number of transactions |
| Grouping.Keys | lib/charts/getTopCategoriesData.ts:21 | the dictionary's keys, each listed once |
| Grouping.KeptKeyListed | lib/charts/getDailySpendData.ts:16-26 | the key of every kept transaction is a dictionary key |
| Grouping.ListedKeyKept | lib/charts/getDailySpendData.ts:16-26 | every dictionary key is the key of some kept transaction |
| Grouping.AbsentKeyHasNoSum | lib/charts/getDailySpendData.ts:25 | a key never inserted holds nothing (`daily[day] \|\| 0`) |
| Grouping.SumGroupsPermutation | lib/charts/getDailySpendData.ts:28-33 | reordering the keys does not change what the groups add up to |
| Grouping.GroupsCoverKept | lib/charts/getDailySpendData.ts:16-26 | the groups together add up to exactly the weights of the kept transactions |
| Grouping.DistinctPermutation | lib/charts/getDailySpendData.ts:28-29 | a permutation of distinct keys has distinct keys |
| DailySpend.TotalSpendIsSumOfDays | lib/charts/getDailySpendData.ts:28-33 | output amounts that are each their day's total add up to the sum of the day groups |
| DailySpend.SkippedChangesNothing | lib/charts/getDailySpendData.ts:18-21 | a transaction with no amount, no day, or before the cutoff changes no day and no key |
| DailySpend.AccumulateDaily | lib/charts/getDailySpendData.ts:16-26 | after the `forEach` the dictionary holds exactly the kept days, each with its total |
| DailySpend.GetDailySpendData | lib/charts/getDailySpendData.ts:10-33 | days strictly ascending (each once), each amount its day's total, every kept day present and no other, and the amounts adding up to all kept spending |
| DailySpend.SortedOutputCovers | lib/charts/getDailySpendData.ts:28-33 | a sorted copy of the keys lists every kept day and only kept days |
| TopCategories.Entries | lib/charts/getTopCategoriesData.ts:27-28 | one entry per key, in key order, holding that category's dictionary value |
| TopCategories.InsertByValueSpec | lib/charts/getTopCategoriesData.ts:29 | inserting into a largest-first list keeps it largest-first and adds exactly that entry |
| TopCategories.SortByValueDesc | lib/charts/getTopCategoriesData.ts:29 | the sort yields the same entries (a permutation), largest value first |
| TopCategories.TopSix | lib/charts/getTopCategoriesData.ts:30 | at most six entries, a prefix of the list, all of it when it is short |
| TopCategories.StepSums | lib/charts/getTopCategoriesData.ts:13-25 | one more transaction adds its amount and 1 to its trimmed category if it has a category and a non-zero amount, and inserts the key when it is new |
| TopCategories.AccumulateOne | lib/charts/getTopCategoriesData.ts:14-24 | one step of the `forEach` keeps both dictionaries equal to the grouped sums of the transactions seen |
| TopCategories.AccumulateTotals | lib/charts/getTopCategoriesData.ts:10-25 | after the `forEach` the totals and counts dictionaries hold exactly the grouped amounts and counts, keyed by trimmed name |
| TopCategories.GetTopCategoriesData | lib/charts/getTopCategoriesData.ts:10-39 | the two lists are the first six of the categories ranked by total amount and by count |
| TopCategories.TopSixDominates | lib/charts/getTopCategoriesData.ts:27-35 | each list is largest-first, at most six long, no category left out outranks one kept, and every entry is a category with its grouped value |
| TopCategories.CountsAddUp | lib/charts/getTopCategoriesData.ts:13-25 | before ranking, the counts add up to the number of counted transactions (at most all of them) and the totals to their amounts |
| TopCategories.SurroundingSpaceMerged | lib/charts/getTopCategoriesData.ts:17 | two categories that differ only in surrounding whitespace are one category holding both amounts |
| Text.TrimSpec | components/ChamasTab.tsx:197 | `trim` keeps the contiguous piece between leading and trailing whitespace: no whitespace at either end, only whitespace cut off |
| Text.TrimEmptyIffAllSpace | components/ChamasTab.tsx:197 | `!name.trim()` holds exactly for an empty or whitespace-only name |
| Text.TrimIdempotent | components/ChamasTab.tsx:208 | trimming twice equals trimming once |
| Text.LessTotal | lib/charts/getDailySpendData.ts:29 | the default string order puts any two different strings one way or the other |
| Text.LessTransitive | lib/charts/getDailySpendData.ts:29 | the default string order is transitive |
| Text.SortStrings | lib/charts/getDailySpendData.ts:29 | `sort()` yields the same strings (a permutation) in non-decreasing order |
| Text.SortedDistinctIncreasing | lib/charts/getDailySpendData.ts:28-29 | sorted keys without duplicates are strictly increasing |
| Text.ContainsAt | app/analysis/page.tsx:308-310 | an occurrence at any position makes `includes` true |

## Left out

- Firestore I/O: queries, `onSnapshot` listeners, authentication, routing, cookies, the
  loading flags, alerts, confirmation dialogs and message timers. The store is an
  in-memory class; a confirmation is a boolean parameter.
- Failed writes. A network error between the two writes of an allocation, or between the
  writes of a migration iteration, would leave the store half-updated. The model writes
  every document of an operation or none of them.
- Concurrency. Two tabs or devices writing at the same time are not modelled.
- Query ordering and filtering. The charts take the transactions the query returned, in
  its order. Firestore's `orderBy` drops documents that lack the ordered field; this
  filter is not modelled. The ledgers' `orderBy("timestamp")` display order is not
  modelled either.
- The budget-months list of the transactions page (`orderBy("total")`) is not modelled.
- Number parsing. `Number(...)` on form strings is not modelled: inputs are
  `Option<int>`. NaN, fractional amounts and `toFixed(2)` rounding are left out, since
  amounts are whole numbers. Stored category amounts are numbers, where the source stores
  the typed strings.
- The progress-bar percentages, the analysis page's money-lost figure, the
  lost/recovered/savings colour tags of the category
  table, and the pie and line chart components: display only.
- Dates are opaque values. The daily chart's thirty-day cutoff is a predicate
  parameter, because it compares parsed `Date`s against a clock reading.
- Text details:
  - `toLowerCase` is modelled on ASCII letters only.
  - String order compares characters, not UTF-16 code units; they differ only for
    characters outside the Basic Multilingual Plane.
  - `Object.entries`/`Object.keys` order is modelled as insertion order, which JavaScript
    departs from for integer-like keys.
- The commented-out dashboard summary API route and the UI-only files (sidebar, top bar,
  layout, sign-up, the special-functions accordion) are not part of this model.
- MigrateChama.MigrateItem: the source writes the excess transaction before it updates
  the original. The method does the same, but its contract states only the final state
  (`MigrateOne`), not the order of the writes.
- MigrateChama.MigrateItem: the source copies a found transaction's `date` into its
  writes without a guard. A configured transaction with no `date` field makes the first
  write of that iteration fail, and the whole run stops there. The model cannot tell a
  missing `date` from an empty one: it writes an empty date and carries on.
- The chama tab's create-chama and allocation forms are commented out in the source, so
  `ChamaTab.HandleCreateChama` and `ChamaTab.HandleAllocate` have no live caller there.
  They are modelled as written. Allocation is live in the allocation panel
  (`AllocateFunds`), and chama creation in the creation panel (`CreateChamaForm`).
- Budgets.BudgetForm.HandleLoadMonth: a stored budget document without a `categories`
  field keeps the previous rows in the source. Here every document has a (possibly
  empty) row list.
- Places where this model follows the code rather than the documented intent:
  - No migration guards against running twice (`RerunDoubles`, `SurplusNeverLowers`,
    `RerunRepeatsCorrection`).
  - Adding a "Savings" transaction writes no savings deposit (`AddTransaction` leaves
    every ledger unchanged).
  - Saving a budget never checks or sets `closed`, beyond writing `false`.
