# Expense tracker: dashboard analytics and record handlers in Dafny

This project models the core of a personal expense tracker, a Flask web
application where each user records expenses (filed under categories of
their own), income and monthly budgets.

The main part is the dashboard's analytics engine (`app/routes/main.py`).
It computes:

- the current month's income and expense totals;
- a per-category breakdown of the month's spending;
- two chart series that step back in 30-day strides from the reference date;
- an ordered list of advisories: savings rate, month-over-month change,
  budget status, and a dominant category.

Around it, the route handlers that change the tables are modelled:

- setting and listing budgets;
- adding and deleting categories;
- registering and logging in;
- adding, editing, deleting and listing expenses;
- adding and listing income.

Each handler first validates the form, in the source's order, then
changes at most one table. The exception is `delete_category`, which
announces that a category goes together with its expenses and so writes
two tables.

Layout, one module per file:

- `records.dfy`: the row types.
- `calendar.dfy`: proleptic Gregorian dates, `timedelta` subtraction proved
  against the day ordinal, and the previous-month roll-over.
- `text.dfy`: `str.strip` and ASCII lower-casing.
- `queries.dfy`: filters, sums with `or 0`, descending order, `limit` and
  Flask-SQLAlchemy pagination.
- `ledger.dfy`: monthly sums, the budget lookup and the `GROUP BY` category
  breakdown.
- `store.dfy`: the `Database` class. It holds one sequence per table, the
  schema's unique constraints as the invariant `Valid()`, and the row
  writes that keep it.
- `dashboard.dfy`: `main.py`.
- `budgets.dfy`, `categories.dfy`, `auth.dfy`, `expenses.dfy` and
  `income.dfy`: the other route files.

Amounts are exact reals. The signed-in user and the reference date
(`datetime.now()`) are parameters. Each handler that writes is a method
that `modifies` only the tables it changes and keeps `Valid()`: one
table, except `CategoryRoutes.DeleteCategory`, which modifies the
categories and the expenses. Read-only
queries are functions over table snapshots.

## Model

| member | source | states |
|---|---|---|
| Ledger.ExpenseTotal | app/routes/main.py:27-31 | the month's expense sum is 0 when no expense of the user falls in that month and year |
| Ledger.IncomeTotal | app/routes/main.py:21-25 | the month's income sum is 0 when no income of the user falls in that month and year |
| Ledger.ExpenseTotalAfterInsert | app/routes/main.py:27-31 | a stored expense adds its amount to its own month's total and nothing to any other |
| Ledger.IncomeTotalAfterInsert | app/routes/main.py:21-25 | a stored income adds its amount to its own month's total and nothing to any other |
| Ledger.ExpenseTotalIgnoresOthers | app/routes/main.py:28-30 | rows of other users or other months never change the total |
| Ledger.ExpenseTotalPositive | app/routes/main.py:27-31 | with positive amounts the total is non-negative, and positive exactly when some expense matches |
| Ledger.IncomeTotalPositive | app/routes/main.py:21-25 | with positive amounts the income total is non-negative, and positive exactly when some income matches |
| Dashboard.CurrentMonthTotals | app/routes/main.py:18-33 | the pair of monthly sums for the reference date's month, each 0 when nothing matches |
| Ledger.FindBudget | app/routes/main.py:134-138 | the index of the first budget of (user, month, year), or none exactly when there is none |
| Dashboard.BudgetOf | app/routes/main.py:134-138 | the budget found belongs to that user, month and year; none exactly when the table holds no such budget |
| Ledger.CategoryNameOf | app/routes/main.py:38-41 | the joined category's name, or none exactly when no category has the expense's key |
| Ledger.AddShare | app/routes/main.py:45 | accumulating a row keeps every existing group in place and opens at most one new group |
| Ledger.Breakdown | app/routes/main.py:38-45 | there are never more groups than joined rows |
| Ledger.AddShareSum | app/routes/main.py:45 | accumulating a row into its group adds its amount to the sum of all groups |
| Ledger.AddShareOf | app/routes/main.py:45 | accumulating a row changes only its own group's amount |
| Ledger.AddShareNames | app/routes/main.py:45 | the groups after accumulating are the old ones plus the row's category |
| Ledger.AddShareDistinct | app/routes/main.py:45 | accumulating keeps one group per category name |
| Ledger.BreakdownDistinct | app/routes/main.py:38-45 | the breakdown has one entry per category name |
| Ledger.BreakdownSum | app/routes/main.py:38-47 | the entries add up to the sum of the month's joined expenses |
| Ledger.BreakdownShareOf | app/routes/main.py:38-47 | each entry's amount is the sum of the month's expenses in that category |
| Ledger.BreakdownNames | app/routes/main.py:38-47 | a name has an entry exactly when some expense of the month joins a category of that name |
| Ledger.BreakdownCoversMonth | app/routes/main.py:38-47 | when every expense of the month joins a category, the breakdown adds up to the month's expense total |
| Ledger.BreakdownPositive | app/routes/main.py:38-47 | with positive expense amounts every entry is positive |
| Ledger.ShareAtMostSum | app/routes/main.py:150-152 | no entry of positive amounts exceeds their sum |
| Dashboard.CategoryBreakdown | app/routes/main.py:35-47 | the breakdown for the reference month has distinct names and sums to the joined expenses |
| Calendar.DaysInMonth | app/routes/main.py:54 | month lengths are 28 to 31, and 29 only for February of a leap year |
| Calendar.PrevDay | app/routes/main.py:54 | the day before a valid date is a valid, earlier date |
| Calendar.SubDays | app/routes/main.py:54 | subtracting days gives a valid date, strictly earlier when any day is subtracted |
| Calendar.DaysBeforeYearStep | app/routes/main.py:54 | the day count before a year grows by that year's length |
| Calendar.DaysBeforeMonthStep | app/routes/main.py:54 | the day count before a month grows by the previous month's length |
| Calendar.OrdinalPrevDay | app/routes/main.py:54 | the day before has an ordinal one smaller |
| Calendar.OrdinalSubDays | app/routes/main.py:54 | `now - timedelta(days=n)` lies exactly n days earlier by the day ordinal |
| Calendar.SubDaysAntitone | app/routes/main.py:53-54 | stepping back further never gives a later date |
| Calendar.MonthIndexFollowsDateKey | app/routes/main.py:57-58 | an earlier or equal date never falls in a later (year, month) |
| Calendar.DateKeyIsLexicographic | app/routes/main.py:54 | the date key orders valid dates by year, then month, then day |
| Calendar.PreviousMonth | app/routes/main.py:112-117 | the previous month is in 1..12 and exactly one calendar month earlier, across a year boundary too |
| Calendar.Ordinal | app/routes/main.py:54 | the day number of a valid date lies inside its own year's range of day numbers |
| Dashboard.StepBack | app/routes/main.py:54 | the i-th target date is a valid date |
| Dashboard.StepBackLabels | app/routes/main.py:53-58 | a larger step never lands in a later month |
| Dashboard.StepBackDistance | app/routes/main.py:54 | the i-th target date lies 30·i days before the reference date |
| Dashboard.MonthlyExpenseTrend | app/routes/main.py:49-64 | exactly `months` points for i = months-1 down to 0, each the expense sum of its target date's month; months non-decreasing; the last is the reference month |
| Dashboard.IncomeVsExpense | app/routes/main.py:66-88 | exactly `months` points with the income and expense sums of each target month and savings = income - expense; months non-decreasing; the last is the reference month |
| Dashboard.PercentCompare | app/routes/main.py:98 | comparing a percentage of a positive base with c is comparing the part with c% of the base |
| Dashboard.SavingsPct | app/routes/main.py:98 | for positive income, the savings percentage is non-negative exactly when spending does not exceed income, and at most 100 for non-negative spending |
| Dashboard.SavingsAdvice | app/routes/main.py:97-109 | an advisory exactly when income > 0, in the tier of the savings percentage (>= 20, [10, 20), (0, 10), <= 0), reporting that percentage |
| Dashboard.SavingsTiers | app/routes/main.py:101-109 | the tiers are spending <= 80%, 80-90%, 90-100% and >= 100% of income |
| Dashboard.MonthOverMonthAdvice | app/routes/main.py:126-131 | only against a positive previous month: "up" exactly above 1.1x, "down" exactly below 0.9x, nothing inside the band; the reported change is above 10% and is the relative change |
| Dashboard.BudgetAdvice | app/routes/main.py:140-145 | only with a budget: "exceeded" exactly above the amount, with a positive overrun; "approaching" exactly in (0.9x, 1x], with the remainder in [0, 10% of the amount) |
| Dashboard.FirstMaxIndex | app/routes/main.py:150 | the index of the first entry with the largest amount |
| Dashboard.DominantCategoryAdvice | app/routes/main.py:148-153 | fires exactly when the first largest category exceeds 40% of a positive total; reports its name and a share above 40% |
| Dashboard.DominantShareAtMostWhole | app/routes/main.py:148-153 | with positive amounts and every expense filed under a category, the reported share is at most 100% |
| Dashboard.EmitInOrder | app/routes/main.py:93-155 | the four checks give at most four advisories, in check order |
| Dashboard.AppendSavings | app/routes/main.py:100-109 | the savings block appends exactly the savings advisory |
| Dashboard.AppendMonthOverMonth | app/routes/main.py:126-131 | the month-over-month block appends exactly its advisory |
| Dashboard.AppendBudget | app/routes/main.py:133-145 | the budget block appends exactly its advisory |
| Dashboard.AppendDominantCategory | app/routes/main.py:147-153 | the category block appends exactly its advisory |
| Dashboard.FinancialInsights | app/routes/main.py:90-155 | the insights are the four checks' advisories on the month's totals, the previous month's expenses, the month's budget and the breakdown, in check order, at most four |
| Dashboard.ShowDashboard | app/routes/main.py:166-180 | the page shows the month's totals, savings = income - expense, the breakdown, six-point series ending in the reference month and at most four insights |
| Store.NextId | app/models/budget.py:15 | a new key is positive and larger than every key in use |
| Store.InsertKeepsIdsUnique | app/routes/expenses.py:83-84 | inserting under the next key keeps primary keys unique |
| Store.RemoveAt | app/routes/expenses.py:145 | the table without one row, the rest in order |
| Store.PairwiseRemoveAt | app/routes/expenses.py:145 | removing a row keeps every pairwise constraint |
| Store.PairwiseFilter | app/routes/categories.py:60-61 | removing the rows that fail a predicate keeps every pairwise constraint |
| Store.AppendExpenseKeepsConstraints | app/routes/expenses.py:76-84 | a well-formed expense filed under its user's category keeps the expense constraints |
| Store.ReplaceExpenseKeepsConstraints | app/routes/expenses.py:123-127 | overwriting a row under the same key with a well-formed one keeps the expense constraints |
| Store.RemoveExpenseKeepsConstraints | app/routes/expenses.py:145-146 | deleting a row keeps the expense constraints |
| Store.AppendIncomeKeepsConstraints | app/routes/income.py:40-47 | a well-formed income row under the next key keeps the income constraints |
| Store.Database.constructor | app/models/budget.py:23-25 | an empty database meets every constraint |
| Store.Database.InsertExpense | app/routes/expenses.py:83-84 | appends exactly the row and keeps the invariant |
| Store.Database.ReplaceExpense | app/routes/expenses.py:123-127 | replaces exactly row k and keeps the invariant |
| Store.Database.DeleteExpense | app/routes/expenses.py:145-146 | removes exactly row k and keeps the invariant |
| Store.Database.InsertIncome | app/routes/income.py:46-47 | appends exactly the row and keeps the invariant |
| BudgetRoutes.Upsert | app/routes/budgets.py:56-75 | the table grows by at most one row |
| BudgetRoutes.UpsertSpec | app/routes/budgets.py:56-75 | afterwards exactly one row holds (user, month, year), with the new amount, and the lookup finds it; keys and budget keys stay unique; every other row is untouched; a row is added exactly when none existed |
| BudgetRoutes.UpsertUpdates | app/routes/budgets.py:62-65 | with a row for the key, only that row's amount changes; no row is added and the lookup still finds it |
| BudgetRoutes.UpsertInserts | app/routes/budgets.py:66-75 | without a row for the key, exactly one row (user, month, year, amount) is appended under a fresh id; every earlier row is untouched |
| BudgetRoutes.UpsertIdempotent | app/routes/budgets.py:56-75 | setting the same budget twice equals setting it once |
| BudgetRoutes.AddBudget | app/routes/budgets.py:41-82 | a non-positive amount, then a month outside 1..12, is refused with the table unchanged; otherwise the table is upserted, reporting an update exactly when the budget existed; the invariant is kept |
| BudgetRoutes.BudgetKeyIsYearThenMonth | app/routes/budgets.py:21 | for months 1..12 the single key orders by year, then month |
| BudgetRoutes.LatestBudgets | app/routes/budgets.py:19-21 | the listing holds at most twelve rows and never more than the table |
| BudgetRoutes.LatestBudgetsOwned | app/routes/budgets.py:19-21 | at most twelve of the user's own budgets, latest month first |
| BudgetRoutes.LatestBudgetsAreLatest | app/routes/budgets.py:19-21 | a budget of the user left out is older than every budget shown |
| BudgetRoutes.ListBudgets | app/routes/budgets.py:17-37 | one line per listed budget, with the month's expense sum spent (0 when none) and remaining = amount - spent |
| CategoryRoutes.NameTakenPerUser | app/routes/categories.py:33-36 | another user's category never makes a name a duplicate |
| CategoryRoutes.AddCategory | app/routes/categories.py:24-48 | a stripped name shorter than 2, then a name the user has, is refused with the table unchanged; otherwise exactly one (user, name) row is added under a fresh key; the invariant is kept |
| CategoryRoutes.NameTaken | app/routes/categories.py:33-36 | the scan answers yes exactly when some row has that user and that name |
| CategoryRoutes.AddedNameIsTaken | app/routes/categories.py:33-40 | after an add, the same name with any surrounding spaces is a duplicate |
| CategoryRoutes.FindOwnedCategory | app/routes/categories.py:54-57 | finds a row with that key owned by the user, or none exactly when the user owns no such category |
| CategoryRoutes.ExpensesOutsideCategory | app/routes/categories.py:53 | the expenses kept are exactly those not filed under the category |
| CategoryRoutes.DeleteCategory | app/routes/categories.py:52-63 | a category the user does not own is a 404 with nothing changed; otherwise that row and its expenses are removed, no row keeps its key, and the invariant is kept |
| CategoryRoutes.RemoveCategoryKeepsKeys | app/routes/categories.py:59-61 | removing a category keeps keys and per-user names unique, and removes its key |
| CategoryRoutes.CascadeKeepsExpensesFiled | app/routes/categories.py:59-62 | after the cascade every remaining expense is well formed and filed under a remaining category of its user |
| CategoryRoutes.DeleteCategoryAsWritten | app/routes/categories.py:59-61 | as the code runs: a 404 exactly for a category the user does not own; a rolled-back commit exactly when expenses are filed under it; the expenses never change, and only a category without expenses is removed |
| CategoryRoutes.OutsideUnfiledIsAll | app/routes/categories.py:60-61 | when no expense is filed under the category, the announced deletion keeps every expense |
| CategoryRoutes.AsWrittenAgreesWhenUnfiled | app/routes/categories.py:59-62 | for an owned category without expenses, the code removes the same row and keeps the same expenses as the announced deletion |
| CategoryRoutes.AsWrittenKeepsFiledCategory | app/routes/categories.py:59-62 | for an owned category with expenses, the code keeps the category and its expenses, unlike the announced deletion |
| CategoryRoutes.AsWrittenRefusesExample | app/routes/categories.py:59-62 | one category with one expense: the delete is rolled back and both tables stay as they were |
| AuthRoutes.HashPassword | app/models/user.py:40-42 | the stored hash carries the method tag |
| AuthRoutes.CheckPasswordAcceptsOnlyOriginal | app/models/user.py:44-46 | a stored hash accepts exactly the password it was made from |
| AuthRoutes.CheckPassword | app/models/user.py:44-46 | only a hash that carries the method tag accepts a password |
| AuthRoutes.RegistrationErrors | app/routes/auth.py:27-35 | each message appears exactly when its check fails, in check order; no message exactly when the form is acceptable |
| AuthRoutes.CollectRegistrationErrors | app/routes/auth.py:27-35 | the appends build exactly the list of messages whose checks fail |
| AuthRoutes.FindUserByEmail | app/routes/auth.py:43 | the first user with that e-mail, or none exactly when nobody has it |
| AuthRoutes.Register | app/routes/auth.py:14-56 | a visitor is redirected exactly when signed in; a failing form is answered with exactly the list of failed checks on the stripped name and normalised e-mail; any failed check, or an e-mail in use, adds nobody; otherwise exactly one user is added with the stripped name, normalised e-mail and hashed password; the invariant (unique e-mails) is kept |
| AuthRoutes.Login | app/routes/auth.py:59-78 | a visitor is answered "already signed in" exactly when signed in; otherwise, with unique e-mails, the user with the normalised e-mail is logged in exactly when the password checks against the stored hash, and a wrong password or an unknown e-mail fails; a login always names a matching user |
| AuthRoutes.FindAppendedUser | app/routes/auth.py:48-51 | a user added under an unused e-mail is the one the lookup finds |
| AuthRoutes.LoginAfterRegister | app/routes/auth.py:65-71 | after registering, the same e-mail in any case or padding logs in as the new user with the same password, and fails with any other |
| Text.StripStart | app/routes/categories.py:27 | a suffix of the input that starts with a non-space, after only spaces |
| Text.StripEnd | app/routes/categories.py:27 | a prefix of the input that ends with a non-space, before only spaces |
| Text.Strip | app/routes/categories.py:27 | the result is no longer than the input and has no whitespace at either end |
| Text.StripSpec | app/routes/categories.py:27 | the stripped name is the input's infix between leading and trailing whitespace, with no whitespace at either end |
| Text.StrippedFixed | app/routes/categories.py:27 | a string with no outer whitespace strips to itself |
| Text.StripIdempotent | app/routes/categories.py:27 | stripping twice is stripping once |
| Text.StripEmptyIffBlank | app/routes/income.py:32 | a string strips to empty exactly when it is all whitespace |
| Text.Lower | app/routes/auth.py:22 | same length, no upper-case letter left, each letter lowered and every other character kept |
| Text.LowerIdempotent | app/routes/auth.py:22 | lower-casing twice is lower-casing once |
| Text.LowerKeepsSpaces | app/routes/auth.py:22 | lower-casing changes no whitespace |
| Text.NormalizeEmail | app/routes/auth.py:22 | the normalised e-mail is no longer than the input and has no upper-case letter |
| Text.NormalizeEmailIdempotent | app/routes/auth.py:65 | a normalised e-mail normalises to itself |
| Queries.Filter | app/routes/expenses.py:28 | the kept rows pass the predicate and come from the table |
| Queries.FilterMembers | app/routes/expenses.py:28 | a row is kept exactly when it is in the table and passes |
| Queries.FilterExt | app/routes/expenses.py:30-35 | a filter depends only on the predicate's values on the table |
| Queries.FilterFilter | app/routes/expenses.py:30-35 | refining a filtered query filters by the conjunction |
| Queries.SumWhere | app/routes/main.py:21-25 | no matching row gives 0 |
| Queries.SumWhereAppend | app/routes/main.py:21-25 | the sum over two parts is the sum of the parts' sums |
| Queries.SumWhereExt | app/routes/main.py:21-25 | a sum depends only on the predicate's values on the table |
| Queries.SumWherePositive | app/routes/main.py:21-25 | with positive amounts a sum is non-negative, and positive exactly when some row matches |
| Queries.InsertDesc | app/routes/expenses.py:37 | inserting into a descending listing keeps it descending and a permutation |
| Queries.SortDesc | app/routes/expenses.py:37 | the listing is descending by key and a permutation of the rows |
| Queries.Take | app/routes/budgets.py:21 | the first n rows, or all when fewer |
| Queries.TopRowsByKey | app/routes/budgets.py:21 | a row left out by the limit ranks below every row kept |
| Queries.Paginate | app/routes/expenses.py:37 | a 404 exactly for page < 1 or an empty page after the first; otherwise at most 10 items, item k being row 10·(page-1)+k |
| Queries.RowOnPage | app/routes/expenses.py:37 | row k is item k mod 10 of page k div 10 + 1 |
| Queries.FullPagesBeforeLast | app/routes/expenses.py:37 | every page before the last is full |
| Queries.PageOfSortedFilter | app/routes/income.py:18-20 | a page of a filtered, ordered listing holds only passing rows, in key order |
| Queries.FilteredRowIsListed | app/routes/income.py:18-20 | every passing row is on some page |
| ExpenseRoutes.NarrowByCategory | app/routes/expenses.py:28-31 | narrowing the user's expenses by an active category filter equals filtering by both conditions; an inactive filter changes nothing |
| ExpenseRoutes.NarrowByMonth | app/routes/expenses.py:32-33 | narrowing by an active month filter adds the month condition; an inactive filter changes nothing |
| ExpenseRoutes.NarrowByYear | app/routes/expenses.py:34-35 | narrowing by an active year filter adds the year condition; an inactive filter changes nothing |
| ExpenseRoutes.ListExpensesQuery | app/routes/expenses.py:21-43 | narrowing the query filter by filter gives the page of the listing of expenses matching the user and every active filter |
| ExpenseRoutes.ListExpenses | app/routes/expenses.py:21-37 | the first page always renders; a page holds at most ten items and counts no more rows than the table |
| ExpenseRoutes.ListedExpensesMatch | app/routes/expenses.py:28-37 | a page shows only the user's expenses that agree with every active filter, newest first |
| ExpenseRoutes.EveryMatchIsListed | app/routes/expenses.py:28-37 | every matching expense is on some page |
| ExpenseRoutes.FormError | app/routes/expenses.py:61-74 | the first failing check among amount, category ownership and date, none exactly when all pass |
| ExpenseRoutes.AddExpense | app/routes/expenses.py:47-91 | refused without categories, then by the first failing form check, with the table unchanged; otherwise exactly one expense of the user is added with the given fields and stripped description; the invariant is kept |
| ExpenseRoutes.FindOwnedExpense | app/routes/expenses.py:97-100 | finds a row with that key owned by the user, or none exactly when there is none |
| ExpenseRoutes.Edited | app/routes/expenses.py:123-126 | the edited row keeps its key and owner |
| ExpenseRoutes.EditExpense | app/routes/expenses.py:95-134 | an expense the user does not own is a 404; a failing form check changes nothing; otherwise only that row changes, in amount, category, date and description; the invariant is kept |
| ExpenseRoutes.DeleteExpense | app/routes/expenses.py:138-148 | an expense the user does not own is a 404 with nothing changed; otherwise exactly that row is removed; the invariant is kept |
| ExpenseRoutes.DeleteRemovesKey | app/routes/expenses.py:140-146 | after the delete no row has that key |
| IncomeRoutes.ListedIncomeOwned | app/routes/income.py:15-22 | a page shows only the user's income, newest first |
| IncomeRoutes.EveryIncomeIsListed | app/routes/income.py:15-22 | every income entry of the user is on some page |
| IncomeRoutes.ListIncome | app/routes/income.py:15-20 | the first page always renders; a page holds at most ten items and counts no more rows than the table |
| IncomeRoutes.IncomeSource | app/routes/income.py:32 | the stored source is non-empty, has no outer whitespace, and is the stripped input or "Salary" |
| IncomeRoutes.IncomeSourceKeepsEntered | app/routes/income.py:32 | the stripped input is kept exactly when it has a non-space character; a blank input becomes "Salary" |
| IncomeRoutes.AddIncome | app/routes/income.py:26-54 | a non-positive amount, then an invalid date, is refused with the table unchanged; otherwise exactly one income row of the user is added with the given amount, date and source; the invariant is kept |

## Left out

- Floating point: amounts are exact reals. `db.Float` rounding at the exact threshold boundaries, and NaN or infinite amounts (which `float()` accepts and `amount <= 0` lets through), are not modelled.
- Message text: formatting (`:.1f`, `:,.2f`, the currency sign) and wording. Advisories and outcomes are structured values carrying the reported figure.
- Chart labels: `strftime('%b %Y')` labels are the (year, month) pair of the target date.
- Form parsing: `float()`, `int()` and `strptime('%Y-%m-%d')` raise `ValueError` on malformed text. Handlers take already-parsed values. A date that `strptime` would reject is any (year, month, day) that is not a calendar date in years 1..9999, and that is the error path modelled.
- Query-string parsing: `request.args.get(..., type=int)` yields no value for unparsable text. Filters are `Option<int>` and the page number an `int`.
- Clock: `datetime.now()` is a parameter. The source reads the clock separately in each helper, and the model uses one reference date for the whole dashboard.
- Flask plumbing: routing, templates, `flash`, redirects, `login_required` and the session that `login_user`/`logout` manage. The signed-in user is a parameter, and "already signed in" is a boolean input to `register` and `login`.
- GET requests: they render forms and change nothing. Only POST submissions are modelled.
- Dashboard.ShowDashboard: states the totals, savings, breakdown, series lengths and last labels, and the insight count. The full contents of the series and insights are stated by the methods it calls (MonthlyExpenseTrend, IncomeVsExpense, FinancialInsights).
- AuthRoutes.HashPassword: a one-to-one stand-in for salted PBKDF2 (`generate_password_hash`). The only property used is that the check accepts exactly the original password.
- Text.Lower: lower-cases ASCII letters only. Python's `str.lower` also lower-cases non-ASCII letters.
- Column length limits (`String(50)`, `String(100)`, ...) are not enforced by SQLite and are not modelled.
- Dates before year 1: `timedelta` subtraction below `date.min` raises `OverflowError`. The model's day subtraction continues into proleptic years below 1.
- Order of ties: SQL leaves the order of rows with equal dates, and of `GROUP BY` groups, to the engine. The model keeps table order among equal dates and lists groups in first-appearance order.
- `list_categories` (ordered by name), `logout`, `index` and `get_user_categories` are display-only and not modelled.
- Reports, seeding and configuration are outside this model: `app/routes/reports.py` (document export), `scripts/seed_data.py` (random data), `config.py`, `run.py`, `wsgi.py` and `app/__init__.py`.
- Category deletion: CategoryRoutes.DeleteCategory models the deletion the handler announces, the category with its expenses. The code as it stands behaves differently, see "## Findings". The ORM's flush order and the SQLite foreign-key pragma are not modelled beyond that outcome.
- Concurrency and transactions: each handler is one atomic step. `edit_expense` assigns two fields before parsing the date, and a parse failure never commits, so the modelled table is unchanged in that case.

## Findings

| source | as written | input that shows it | evidently intended | confidence | as-written member | corrected member |
|---|---|---|---|---|---|---|
| app/routes/categories.py:59-62 | `db.session.delete(category)` then `commit()`. The relationship at app/models/category.py:20 has no delete cascade, so the ORM first sets `category_id` of the category's expenses to NULL. That column is NOT NULL (app/models/expense.py:18), so the commit fails with an integrity error and nothing is removed | a user with one category and one expense filed under it deletes that category | the category and its expenses are removed, as the docstring (line 53) and the message (line 62) say | medium, not executed | CategoryRoutes.DeleteCategoryAsWritten, CategoryRoutes.AsWrittenKeepsFiledCategory, CategoryRoutes.AsWrittenRefusesExample | CategoryRoutes.DeleteCategory, CategoryRoutes.CascadeKeepsExpensesFiled |
