# Ledger engine of a personal-finance app, in Dafny

This project models the money-handling core of a Laravel personal-finance
application. It covers:

- the accounts and transactions tables, and the balance engine that keeps
  every account balance in step with the transactions;
- the reconciliation `Account::recalculateBalance`;
- the transaction query scopes and the monthly sums;
- savings goals and their allocations;
- monthly category budgets, including copying them to the next month;
- the dashboard figures;
- the two URL helpers of the front end.

Modelling choices:

- Money is integer cents, because the amount columns are `decimal(15,2)`.
  Percentages and the suggested monthly contribution of a goal are reals.
- Each table is a map from auto-increment id to row, plus the next id.
  `Common.Rows` lists a table's rows in id order.
- A query is the list of its `where` conditions.
- "Now" is a parameter: the current month and year, today's date, and the
  month and day differences to a deadline.
- Validation rules of the HTTP layer are preconditions: amounts of at least one
  cent, a transfer between two different accounts, a withdrawal of at most the
  saved amount, a budget amount of at least 0, a goal target of at least 0.01.
  Two refusals are modelled as results. The withdrawal endpoint rejects an
  amount outside 0.01 to the saved amount (`Goals.Goal.RequestWithdrawal`).
  Creating a second budget for the same category, month and year violates the
  unique index of the budgets table, so `Budgets.BudgetTable.Create` returns no
  id and writes nothing.

The ledger (`Ledger.Ledger`) keeps one invariant, `Valid`. Every balance equals
a baseline plus the summed effects (`Transactions.Delta`) of the live
transaction rows. The baseline is the opening balance given at creation, reset to 0 by
reconciliation.
Every create, update and delete of a transaction keeps this invariant, so no
effect is ever applied twice or lost.

Reconciliation discards the baseline, which is the source's behaviour
(`app/Models/Account.php:62`). After it, the balance is exactly the sum of the
effects, and running it again changes nothing.

A goal (`Goals.Goal`) keeps its own invariant: the saved amount is the starting
amount plus the sum of its allocations. The starting amount is not an
allocation (`app/Services/GoalService.php:38`).

The completion flag is not recomputed from the saved amount. A deposit can only
set it, and a withdrawal can only clear it (`app/Services/GoalService.php:89-92`,
`111-114`).

## Model

| member | source | states |
|---|---|---|
| Transactions.ScopeMatches | app/Models/Transaction.php:51-64 | adding a type scope to a query keeps exactly the rows of that type that the query kept |
| Transactions.ForMonthMatches | app/Models/Transaction.php:66-70 | forMonth keeps exactly the rows whose transaction date has that month and that year |
| Transactions.GetSelects | app/Models/Transaction.php:51-70 | a query returns exactly the rows satisfying all its conditions, each as often as it occurs |
| Transactions.KindScopesPartition | app/Models/Transaction.php:51-64 | the income, expense and transfer scopes split any query's rows, and its sums, into three parts that add up to the whole |
| Transactions.TotalOfPositiveAmounts | app/Services/TransactionService.php:205-219 | with positive amounts a sum is at least 0, and is 0 exactly when no row matches |
| Transactions.MonthlyNetIsMonthlyFlow | app/Services/TransactionService.php:205-231 | the monthly summary's net is the month's income minus its expenses, summed row by row; transfers and other months do not count |
| Transactions.NetEffectOfUntouched | app/Services/TransactionService.php:165-203 | transactions that name neither an account as source nor as destination leave its balance unchanged |
| Transactions.TransferConserves | app/Services/TransactionService.php:196-201 | a transfer with a destination takes the amount from its source and gives it to its destination; nothing else changes and the two changes cancel |
| Transactions.RecalculatedIsNetEffect | app/Models/Account.php:55-64 | reconciliation (income − expenses − transfers out + transfers in) equals the sum of the effects the balance engine applied for the account |
| Transactions.TransferCancelsInRecalculation | app/Models/Account.php:59-62 | a transfer adds nothing to the sum of its two accounts' recalculated balances |
| Transactions.RecalculatedAsWrittenCountsRetargetedIncome | app/Models/Account.php:60 | as written, an income whose to_account_id names account 1 adds 1.00 to account 1's recalculated balance, although no effect was applied to account 1 |
| Transactions.NotOlderTotal | app/Models/Transaction.php:72-77 | any two rows are comparable in the order date descending, then created_at descending |
| Transactions.NotOlderTransitive | app/Models/Transaction.php:72-77 | that order is transitive |
| Transactions.InsertKeepsRows | app/Models/Transaction.php:72-77 | inserting into the ordered list adds exactly that row |
| Transactions.InsertSorted | app/Models/Transaction.php:72-77 | inserting into a newest-first list keeps it newest first |
| Transactions.NewestFirstOrderSorts | app/Models/Transaction.php:74-75 | the ordering is a permutation of the rows and is newest first |
| Transactions.RecentIsNewest | app/Models/Transaction.php:72-77 | recent(limit) returns min(limit, count) rows, newest first, taken from the rows, and no row left out is newer than one returned |
| Accounts.NewAccount | app/Services/AccountService.php:25-35 | a new account stores its name, type and icon as given, is active, and its balance defaults to 0 and its colour to bg-blue-500 |
| Accounts.Patched | app/Services/AccountService.php:37-47 | an account update changes only name, type, icon and colour; absent fields keep their values; balance and active flag never change |
| Accounts.TotalAssets | app/Services/AccountService.php:79-85 | total assets are never negative |
| Accounts.TotalLiabilities | app/Services/AccountService.php:87-93 | total liabilities are the absolute value of the sum of the negative active balances, and never negative |
| Accounts.NetWorthIsTotalBalance | app/Services/AccountService.php:72-98 | net worth (assets − liabilities) equals the total balance of the active accounts |
| Accounts.TotalsIgnoreInactive | app/Services/AccountService.php:72-93 | inactive accounts never contribute: the totals are those of the active rows alone |
| Ledger.ApplyReverseRoundTrip | app/Services/TransactionService.php:165-203 | reversing an applied effect, or applying a reversed one, restores every account exactly |
| Ledger.TransferWithoutDestination | app/Services/TransactionService.php:176-201 | a transfer with no destination debits (reversed: credits) only its source |
| Ledger.NetEffectReplace | app/Services/TransactionService.php:129-155 | replacing a live row changes each account's summed effect by the new effect minus the old |
| Ledger.NetEffectRemove | app/Services/TransactionService.php:157-163 | removing a live row takes its effect out of each account's summed effect |
| Ledger.PatchTx | app/Services/TransactionService.php:140-148 | an update keeps the type and created_at; each of account, destination, category, amount, description, notes and date is replaced when present and kept when absent; a patch naming no account and no amount leaves every effect unchanged |
| Ledger.Ledger.CreateAccount | app/Services/AccountService.php:25-35 | inserts the new account under the next id with its opening balance as baseline; the invariant holds |
| Ledger.Ledger.UpdateAccount | app/Services/AccountService.php:37-47 | only the patched fields change; the balance does not; the invariant holds |
| Ledger.Ledger.DeleteAccount | app/Services/AccountService.php:49-53 | soft delete: only the active flag changes, and the total balance drops by the account's balance if it was active |
| Ledger.Ledger.AdjustBalance | app/Services/AccountService.php:60-64 | adds x to one balance, changes nothing else, and moves the sum of all balances by x |
| Ledger.Ledger.ApplyEffect | app/Services/TransactionService.php:185-203 | the new accounts are the old ones with the transaction's effect added to the accounts it names, and no other account changes |
| Ledger.Ledger.ReverseEffect | app/Services/TransactionService.php:165-183 | the new accounts are the old ones with the transaction's effect taken out of the accounts it names, and no other account changes |
| Ledger.Ledger.Store | app/Services/TransactionService.php:63-127 | inserts the row under the next id and applies its effect once; the sum of all balances moves by what the row brings in from outside (the amount of an income, minus that of an expense, 0 for a transfer with a destination); the invariant holds |
| Ledger.Ledger.CreateIncome | app/Services/TransactionService.php:63-82 | adds exactly the amount to the named account and changes no other account |
| Ledger.Ledger.CreateExpense | app/Services/TransactionService.php:84-103 | subtracts exactly the amount from the named account and changes no other account |
| Ledger.Ledger.CreateTransfer | app/Services/TransactionService.php:105-127 | moves the amount from source to destination, no other account changes, the sum of all balances is unchanged, and the description defaults to "Transfer" |
| Ledger.Ledger.Update | app/Services/TransactionService.php:129-155 | every balance moves by the new effect minus the old; a patch of description, notes, date or category leaves all balances unchanged; the invariant holds |
| Ledger.Ledger.Delete | app/Services/TransactionService.php:157-163 | removes the row and reverses its effect; the invariant holds |
| Ledger.Ledger.RecalculateBalance | app/Models/Account.php:55-64 | sets the balance to the reconciliation of the live rows, which is the old balance minus its baseline; on a reconciled account it changes nothing, so it is idempotent |
| Ledger.CreateThenDelete | app/Services/TransactionService.php:63-163 | creating any transaction and then deleting it leaves every balance and the transactions table as they were; the invariant holds |
| Ledger.ExpenseThenAmendExample | app/Services/TransactionService.php:129-155 | 1000.00 less an expense of 200.00 is 800.00; amending the expense to 150.00 gives 850.00 |
| Ledger.TransferThenDeleteExample | app/Services/TransactionService.php:105-163 | a transfer of 50.00 from 500.00 to 100.00 gives 450.00 and 150.00; deleting it restores both |
| Goals.DepositWithdrawalExclusive | app/Models/GoalAllocation.php:42-50 | no allocation is both a deposit and a withdrawal; a zero allocation is neither |
| Goals.MonthlyTargetAtCreation | app/Services/GoalService.php:45-51 | a given monthly target is kept; without a deadline nothing is derived; with a deadline and none given one is derived |
| Goals.MonthlyPlanReachesTarget | app/Services/GoalService.php:46-50 | the derived monthly target, paid every remaining month (at least one), takes the saved amount exactly to the target |
| Goals.ProgressAndRemaining | app/Models/Goal.php:51-61 | progress is at most 100 and at least 0 for a non-negative saved amount; it is 100 exactly when nothing remains; nothing remains exactly when the target is reached; remaining is never negative |
| Goals.DaysRemaining | app/Models/Goal.php:64-68 | no deadline gives no count; otherwise the count is the days until the deadline, and 0 once the deadline has passed |
| Goals.Goal.constructor | app/Services/GoalService.php:31-54 | a new goal is not completed, has no allocations, gets the default icon and colour, and stores the monthly target of MonthlyTargetAtCreation |
| Goals.Goal.Update | app/Services/GoalService.php:56-69 | absent fields keep their values; the saved amount, the completion flag and the allocations never change |
| Goals.Goal.AddFunds | app/Services/GoalService.php:76-96 | appends exactly one deposit of the amount, the saved amount rises by it, and the goal becomes completed when the target is reached, otherwise the flag is unchanged |
| Goals.Goal.AddFundsToday | app/Models/Goal.php:71-89 | the model's own deposit: one allocation dated today with no default notes, the same saved amount and completion rule |
| Goals.Goal.WithdrawFunds | app/Services/GoalService.php:98-118 | appends exactly one withdrawal of −amount noted "Withdrawal" by default; the saved amount falls by it and stays non-negative; the goal is reopened when below the target, otherwise the flag is unchanged |
| Goals.Goal.RequestWithdrawal | app/Http/Controllers/Api/GoalController.php:127-134 | a withdrawal of less than 0.01 or more than is saved is refused and nothing changes; otherwise it appends the same withdrawal allocation as WithdrawFunds (account, −amount, notes defaulting to "Withdrawal", date defaulting to today), lowers the saved amount by it and reopens the goal below the target |
| Goals.AddThenWithdraw | app/Services/GoalService.php:76-118 | adding and then withdrawing the same amount restores the saved amount, and the two allocations cancel |
| Goals.ActiveGoalsSelects | app/Models/Goal.php:92-95 | scopeActive keeps exactly the goals that are not completed |
| Goals.TotalsAreOverActiveGoals | app/Services/GoalService.php:128-133 | the summary's total target and total saved equal the plain sums of targets and saved amounts over the goals scopeActive selects, so completed goals count in neither |
| Goals.OverallProgressBounded | app/Services/GoalService.php:132-154 | when no open goal is past its target, total saved is at most total target and overall progress is at most 100 |
| Goals.CompleteThenReopenExample | app/Services/GoalService.php:31-118 | a 1000.00 goal six months out suggests 1000.00 / 6 a month; depositing 1000.00 completes it; withdrawing 0.01 leaves 999.99 and reopens it |
| Budgets.SpentMatches | app/Services/CategoryService.php:77-79 | spent counts exactly the expenses of that category dated in that month of that year |
| Budgets.SpentWithinMonthlyExpenses | app/Services/CategoryService.php:77-79 | with positive amounts, a category's spending is between 0 and all the expenses of the month |
| Budgets.ProgressFiguresAgree | app/Models/Budget.php:50-54 | the accessor's progress (guarded by amount = 0) equals the service's (guarded by amount > 0) |
| Budgets.BudgetFigures | app/Models/Budget.php:44-60 | progress is at most 100, is 100 once spent reaches a positive amount, and is below 100 before that; over budget holds exactly when remaining is negative; spending exactly the amount is 100 % but not over budget |
| Budgets.BudgetsForSelects | app/Services/BudgetService.php:11-21 | the listing holds exactly the budgets of that month and year, each as often as in the table |
| Budgets.StatusesDescribeBudgets | app/Services/BudgetService.php:52-77 | each status carries its own budget, the category's spending, amount − spent (which may be negative), a capped progress, and an over-budget flag that holds exactly when the remainder is negative |
| Budgets.SummaryAddsUp | app/Services/BudgetService.php:79-93 | total remaining is the sum of the entries' remainders; overall progress is at most 100 and is 0 when the total budget is 0 |
| Budgets.NextPeriod | app/Services/BudgetService.php:99-100 | for a valid month, the next period is exactly one month later (December is followed by January of the next year) and its month is in 1..12 |
| Budgets.Lookup | app/Services/BudgetService.php:105-114 | the lookup finds a row with the key below the next id, or there is none |
| Budgets.FirstOrCreateSpec | app/Services/BudgetService.php:105-114 | firstOrCreate returns an existing row without writing, or adds exactly one row with that key and amount; no existing row changes and keys stay unique |
| Budgets.CopyAllSpec | app/Services/BudgetService.php:102-118 | one entry per source budget, existing rows untouched, keys unique, every source's category present in the next period and returned, new rows only in the next period |
| Budgets.CopyAllCopiesAmounts | app/Services/BudgetService.php:105-114 | every row the copy adds carries the category and amount of one of the source budgets, moved to the target month and year |
| Budgets.CopyAllOnlyReads | app/Services/BudgetService.php:105-114 | when every target key exists, the copy writes nothing |
| Budgets.CopyAllKeepsOtherPeriods | app/Services/BudgetService.php:97-114 | the copy never changes the listing of another period |
| Budgets.CopyIsIdempotent | app/Services/BudgetService.php:95-119 | a second copy of the same month lists the same sources, adds no row and changes no amount |
| Budgets.BudgetTable.Create | app/Services/BudgetService.php:28-36 | month and year default to now; a duplicate (category, month, year) is refused and nothing is written; otherwise exactly one row is added; keys stay unique |
| Budgets.BudgetTable.Update | app/Services/BudgetService.php:38-45 | only the amount changes, and an absent amount keeps the old one |
| Budgets.BudgetTable.Delete | app/Services/BudgetService.php:47-50 | removes exactly that row |
| Budgets.BudgetTable.CopyToNextMonth | app/Services/BudgetService.php:95-119 | the loop's final table and result are exactly CopyAll of the source period's budgets into the next period; existing rows are untouched; every row it adds carries the category and amount of one source budget, in the next period |
| Budgets.OverspentExample | app/Services/BudgetService.php:52-77 | a 500.00 budget whose category spent 600.00 shows 600.00 spent, −100.00 remaining, progress 100, over budget |
| Dashboard.TrackerFacts | app/Services/DashboardService.php:25-49 | on track exactly when net ≥ goal; shortfall is 0 when on track, else positive and equal to the gap; progress is at most 100, equals 100 exactly when on track for a positive goal, is negative after a losing month, and is 0 without a positive goal |
| Dashboard.TrackerNetIsMonthlyFlow | app/Services/DashboardService.php:25-27 | projected savings is the month's flow, equal to the monthly summary's net |
| Dashboard.PreviousMonth | app/Services/DashboardService.php:92-93 | for a valid month, the previous month is exactly one month earlier (January is preceded by December of the year before) and its month is in 1..12 |
| Dashboard.PreviousUndoesNext | app/Services/DashboardService.php:92-93 | the previous month and the next period undo each other (December of last year before January) |
| Dashboard.ComparisonsAgreeWithTrends | app/Services/DashboardService.php:101-121 | changes are 0 without a base; otherwise the income and savings changes are non-negative exactly when the trend is up, the expense change is non-positive exactly when it is up, and a change is 0 exactly when the value is unchanged |
| Dashboard.StatsSavingsAreFlows | app/Services/DashboardService.php:114-120 | the savings block compares this month's flow with the previous month's, and its current value is income − expenses |
| Urls.ResolveUrl | resources/js/lib/utils.ts:9-13 | the result always starts with "/", and a missing or empty URL resolves to exactly "/" |
| Urls.ResolveUrlFacts | resources/js/lib/utils.ts:9-13 | resolving is idempotent; a string and a route object with the same text resolve alike; the result is the input, or the input behind exactly one "/", and a leading "/" is kept |
| Urls.StripTrailingSlashes | resources/js/lib/utils.ts:18 | the result is a prefix of the input that does not end in "/" |
| Urls.StripRemovesOnlySlashes | resources/js/lib/utils.ts:18 | only slashes are removed |
| Urls.LowerStripCommute | resources/js/lib/utils.ts:18 | lower-casing is idempotent and commutes with stripping trailing slashes |
| Urls.IsSameUrlFacts | resources/js/lib/utils.ts:15-21 | isSameUrl ignores trailing slashes and letter case, treats strings and route objects alike, and is an equivalence |

## Left out

- Rounding is not modelled: `round(…, 1)` on percentages, `decimal:2` on the monthly target, and PHP float arithmetic. Percentages and the monthly target are exact reals.
- The bound of the `decimal(15,2)` amount and balance columns (about 10^13 cents) is not modelled, nor how the database refuses or clamps a larger value: amounts and balances are unbounded integers.
- Only one user is modelled: rows are not scoped by `user_id`.
- Eager loading, `getById`, pagination, search and filters are not modelled.
- Ordering is not modelled for listings: goals by deadline, `getTopGoals`, allocations by date.
- `Category::getSpentAmount` is not part of this model. `Budgets.Spent` follows the per-category expense query of `CategoryService::getCategorySpending`: expenses of that category, dated in that month of that year.
- Category management, user settings (the savings goal is a parameter defaulting to 0) and the `cn` class-name helper are left out.
- HTTP controllers and routes are preconditions only. Not modelled: the web form route for transfers, which validates `account_id` where `createTransfer` reads `from_account_id` (routes/web.php:112).
- Atomicity and concurrency are not modelled: each service operation is one atomic method.
- A hard-deleted destination account is not modelled. The source skips that leg when it reverses a transfer. The model only soft-deletes accounts, so the destination always exists.
- `forceDelete` of an account and deleting a goal are not modelled. Cascading deletes are not modelled.
- The clock is a parameter. `diffInMonths` and `diffInDays` are the integers passed in, not a calendar computation.
- The goal's linked account records where an allocation came from. Allocations do not move money between accounts, in the source or in the model.
- Urls.LowerStripCommute: lower-casing covers the ASCII letters only, not JavaScript's full Unicode `toLowerCase`.
- Goals.Goal.AddFundsToday: the model method takes any amount, as `Goal::addFunds` validates nothing. Its contract therefore does not promise a non-negative saved amount.
- Ledger.Ledger.AdjustBalance: as a raw operation it does not keep the ledger invariant. The transaction operations restore it; AdjustBalance says only what changes.
- Ledger.Ledger.RecalculateBalance: it uses the corrected reconciliation (see Findings).
- Transfer updates are not checked for "different accounts". They may set the destination equal to the source, as in the source; that transfer's effect is then zero.

## Findings

| source | as written | input that shows it | evidently intended | confidence | as-written member | corrected member |
|---|---|---|---|---|---|---|
| app/Models/Account.php:60 | transfers in = every row whose to_account_id is the account, of any type | an income of 1.00 from account 0 with to_account_id = 1. Creating an income never sets it, but the update endpoint accepts it (app/Http/Controllers/Api/TransactionController.php:72). Account 1 then reconciles to 1.00, though no effect was ever applied to it | count only rows of type transfer, the only ones whose destination applyTransactionEffect credits | not executed; high that the sums disagree, medium that such rows occur in practice | Transactions.RecalculatedAsWrittenCountsRetargetedIncome | Transactions.RecalculatedIsNetEffect |
