# Personal-finance spending analysis, modelled in Dafny

This project models the spending-analysis core of a personal-finance web service
(`backend/server.py`). Users record income and expenses against a directory of categories.
Each category has a share of the user's monthly budget. For one user and one calendar month
the service computes:

- the month's income and expense records (`get_monthly_data`);
- the spend per category name (`categorize_expenses`);
- the categories whose spend exceeds their share of the budget, largest overspend first
  (`detect_overspending`);
- canned savings tips for each of those categories (`generate_savings_tips`);
- the analysis report: totals, remaining budget, savings rate and the comparison with the
  previous calendar month (`get_spending_analysis`);
- the recommendations report (`get_savings_recommendations`).

The document store behind the create, update, add and delete routes is modelled as a class
whose collections are updated in place.

Modelling choices:

- Money amounts and percentages are `real`. The arithmetic is exact, without floating-point
  rounding.
- Each database collection is a `seq` in insertion order. A Mongo `find` with a filter is
  `Filter`. `find_one`, `update_one` and `delete_one` act on the first match (`FirstIndex`).
- A Python dict built by a comprehension keeps the last value for a repeated key
  (`LastIndex`).
- The category breakdown is a dict, so it keeps first-insertion order. It is modelled as an
  association list of distinct names.
- Python's `sorted(..., reverse=True)` is a stable sort. It is modelled as an insertion sort
  that places each record after those with an equal or larger overspend.
- Suppose a category's spend exceeds its expected budget and that budget is 0 (a 0% category
  or a budget that multiplies out to 0). Then the percentage computation raises
  `ZeroDivisionError`, and the request that called the detector fails. The model returns
  `Err(DivisionByZero)` on that path. It proves that the path cannot arise when every
  category's percentage is positive, as in the seeded directory.
- The current time and the generated identifiers are parameters: `now` and the records'
  `id` fields.

Some behaviours of the code differ from what one might expect of a finance report. The
model follows the code:

- **Zero-spend categories.** One might expect categories with zero spend to be left out of
  the breakdown. The code creates a key for every category that some expense resolves to,
  even when the amounts sum to 0 (`CategoryBreakdown.ZeroSpendCategoryKept`).
- **Non-positive months.** The previous month is computed with the test `month > 1`, so any
  month number below 2 rolls back to December of the year before
  (`Analysis.JanuaryRollsBack`).
- **Negative budgets.** A user's `monthlyBudget` may be negative: no route rejects it. A
  negative budget is not treated like a zero budget. Each category with a positive
  percentage then has a negative expected budget. So such a category is reported as
  overspent when at least one of the month's expenses resolves to it and its total is
  non-negative. A category without a resolved expense has no breakdown entry and is never
  reported. A 0% category with positive spend makes detection fail with the division by
  zero (`OverspendingDetector.Overspending` states when detection fails). A negative
  percentage gives a positive expected budget.
- **Unique emails.** One might expect emails to be unique. Only user creation checks this,
  so an update can give a user another user's email (`Store.UpdateCanDuplicateEmail`).

## Model

| member | source | states |
|---|---|---|
| Finance.DefaultCategories | backend/server.py:135-145 | the seeded directory has nine categories with distinct names and positive budget percentages |
| Seqs.FilterMembers | backend/server.py:157 | a filtered query returns only records of the collection that satisfy the filter, and all of them |
| Seqs.FirstIndex | backend/server.py:177 | `find_one` picks a record satisfying the filter with none before it, or reports that none satisfies it |
| Seqs.LastIndex | backend/server.py:162 | a dict comprehension keeps, for a repeated key, the record with no later record under that key |
| MonthlyData.MonthlyIncome | backend/server.py:156-157 | the user's income of a month: every returned record belongs to the user and period, and every such record is returned |
| MonthlyData.MonthlyExpenses | backend/server.py:156-158 | the same for expenses |
| MonthlyData.MonthlyIncomeAppend | backend/server.py:157 | a newly inserted income record is returned last exactly when it matches, so results come in insertion order |
| MonthlyData.MonthlyExpensesAppend | backend/server.py:158 | the same for expenses |
| MonthlyData.MonthlyExpensesNoMatch | backend/server.py:158 | a month with no matching expenses gives an empty list, not an error |
| MonthlyData.ListIncome | backend/server.py:305-312 | the income list returns exactly the user's records, restricted to the period only when month and year are both given and non-zero |
| MonthlyData.ListExpenses | backend/server.py:324-331 | the same for the expense list |
| CategoryBreakdown.CategoryById | backend/server.py:162 | id lookup in the directory: absent exactly when no category has the id; otherwise the last category with it |
| CategoryBreakdown.Accumulate | backend/server.py:163-168 | `breakdown[name] += amount` on a default-0 dict: adds the key, raises only that key's total by the amount, keeps keys distinct, raises the sum of totals by the amount |
| CategoryBreakdown.Categorize | backend/server.py:161-170 | the folded breakdown has distinct names |
| CategoryBreakdown.CategorizeKeys | backend/server.py:165-168 | a name is a key exactly when some expense's category id resolves to a category with that name; unresolved expenses add nothing |
| CategoryBreakdown.CategorizeTotals | backend/server.py:165-168 | each name's total is the sum of the amounts of the expenses resolving to that name, so two categories with one name have their spends added |
| CategoryBreakdown.CategorizeSum | backend/server.py:165-170 | the totals add up to the amounts of the expenses whose category resolves |
| CategoryBreakdown.BreakdownAccountsForAll | backend/server.py:165-170 | when every expense resolves, the totals add up to all expenses |
| CategoryBreakdown.ZeroSpendCategoryKept | backend/server.py:167-168 | a resolved expense of amount 0 still yields its category's key, with total 0 |
| CategoryBreakdown.CategorizeExpenses | backend/server.py:161-170 | the loop over the expenses produces the breakdown `Categorize` defines |
| Ranking.Insert | backend/server.py:200 | inserting a record adds exactly that record to the multiset of the list |
| Ranking.InsertSorted | backend/server.py:200 | inserting into a list sorted by decreasing overspend keeps it sorted |
| Ranking.SortByOverspent | backend/server.py:200 | the sorted list is a permutation of the input in non-increasing order of overspend |
| Ranking.InsertStable | backend/server.py:200 | inserting places a record after every record with the same overspend |
| Ranking.SortIsStable | backend/server.py:200 | records with equal overspend keep their input order |
| OverspendingDetector.UserById | backend/server.py:177 | the user lookup is absent exactly when no user has the id; otherwise it gives the first user with the id |
| OverspendingDetector.CategoryByName | backend/server.py:185 | name lookup in the directory: absent exactly when no category has the name; otherwise the last category with it |
| OverspendingDetector.EmittedSnoc | backend/server.py:188-198 | one more breakdown entry that does not divide by zero keeps the breakdown safe and appends at most its own record to the loop's list |
| OverspendingDetector.EmittedSound | backend/server.py:188-198 | every record of the loop comes from a breakdown entry whose spend strictly exceeds a non-zero expected budget, with the excess and the percentage derived from them |
| OverspendingDetector.EmittedComplete | backend/server.py:188-198 | every breakdown entry over its allocation has its record in the loop's list |
| OverspendingDetector.Overspending | backend/server.py:172-200 | empty for an unknown user or a zero budget; fails, with the division by zero, exactly when the user is known, the budget is non-zero and some breakdown entry spends above an expected budget of 0; a result is sorted by decreasing overspend |
| OverspendingDetector.OverspendingSound | backend/server.py:172-200 | every reported record is a true overspend of the user's allocation, and its spend is the month's total for that category name |
| OverspendingDetector.OverspendingComplete | backend/server.py:172-200 | every category name that the month's expenses resolve to and whose spend exceeds a non-zero allocation is reported |
| OverspendingDetector.OverspendingIsPermutation | backend/server.py:186-200 | for a known user with a non-zero budget, the report is a reordering of the records the loop emits |
| OverspendingDetector.DivisionSafeMeaning | backend/server.py:190-197 | the loop is safe exactly when no breakdown entry whose name is in the directory spends above an expected budget of 0 |
| OverspendingDetector.PositivePercentagesNeverFail | backend/server.py:190-197 | with every category percentage positive, detection never divides by zero |
| OverspendingDetector.FoodOverspendScenario | backend/server.py:172-200 | a 3000 budget and a 600 Food & Dining expense (15%) give the record: budget 450, 150 over, 33⅓ percent |
| OverspendingDetector.DetectOverspending | backend/server.py:172-200 | the step-by-step detector computes `Overspending` |
| OverspendingDetector.CollectOverspending | backend/server.py:186-198 | the loop succeeds exactly when no entry divides by zero, and then yields the emitted records; otherwise it fails with the division by zero |
| Recommendations.TipsForMeaning | backend/server.py:203-243 | each of the five listed categories gets four tips, none of them the generic tip and no two categories the same list; every other category name gets the single generic tip |
| Recommendations.TipsNeverEmpty | backend/server.py:203-243 | every category gets at least one tip |
| Recommendations.GenerateSavingsTips | backend/server.py:236-253 | one recommendation per record, in order: its category and figures copied from the record, its tips the table entry or the generic tip |
| Recommendations.RecommendationTips | backend/server.py:243 | each recommendation's tips are its category's tips and are not empty |
| Recommendations.RecommendAllConsistent | backend/server.py:236-253 | from records whose overspend is the positive excess, sorted by overspend, come recommendations whose saving is the positive excess of spend over budget, largest first |
| Recommendations.RecommendationsKeepSeverityOrder | backend/server.py:237-253 | recommendations keep the detector's order of decreasing overspend |
| Recommendations.RecommendationsMeaning | backend/server.py:384-394 | every recommendation of the route has a positive saving equal to spend minus the recommended budget and at least one tip, and they come largest saving first |
| Recommendations.RecommendationsForMeaning | backend/server.py:391-394 | the route fails exactly when detection fails, then with the division by zero; otherwise it gives one recommendation per detected record, in the detector's order |
| Recommendations.RecommendationsPeriod | backend/server.py:384-392 | a request naming a non-zero month and year is answered for that period whatever the time; any other request, including a month without a year, for the month and year of `now` |
| Analysis.PreviousPeriodIsPrecedingMonth | backend/server.py:359-360 | for months 1 to 12, the previous period is a valid month exactly one month earlier, and moving one month forward undoes it |
| Analysis.JanuaryRollsBack | backend/server.py:359-360 | any month below 2 rolls back to December of the year before |
| Analysis.SavingsRateMeaning | backend/server.py:356 | 0 without positive income; otherwise the rate times income gives back the remaining budget, is non-negative exactly when expenses do not exceed income, and is at most 100 for non-negative expenses |
| Analysis.ComparisonMeaning | backend/server.py:365-370 | the difference is current minus previous; the percentage change is 0 without positive previous spend, otherwise it rebuilds the current total and is positive exactly when spending went up |
| Analysis.Analyze | backend/server.py:347-380 | fails exactly when detection fails; totals are the sums of the month's records; remaining budget is their difference; the breakdown and overspending are those of the month; the rate is `SavingsRate` of income and remaining budget, 0 without positive income; the comparison is `Compare` of this month's and the previous month's expense totals, with the difference current minus previous |
| Analysis.AnalysisPeriod | backend/server.py:340-382 | a request naming a non-zero month and year is analysed for that period whatever the time; any other request, including a month without a year, for the month and year of `now` |
| Analysis.NoBudgetNoOverspendingCategories | backend/server.py:177-183 | an unknown user, or one with a zero budget, gets an analysis with no overspending categories |
| Analysis.BreakdownAddsUpToTotal | backend/server.py:350-353 | when the category of every expense of the month exists, the breakdown adds up to the month's total expenses |
| Analysis.JanuaryComparesWithDecember | backend/server.py:359-363 | a January analysis compares with December of the previous year |
| Store.ApplyUpdateMeaning | backend/server.py:287-290 | an update sets exactly the fields it names, keeps the identifier and the rest, and applying it twice equals applying it once |
| Store.StampIncome | backend/server.py:297-299 | the stored income's month and year are its date's, and nothing else changes |
| Store.StampExpense | backend/server.py:316-318 | the same for expenses |
| Store.DeletedExpenseNotListed | backend/server.py:333-335 | with unique expense ids, once an expense is deleted it is in no listing |
| Store.UpdateCanDuplicateEmail | backend/server.py:285-290 | an update can make two users share an email |
| Store.FinanceStore.constructor | backend/server.py:33-37 | a store starts with the given categories, no other records, and the dating invariant |
| Store.FinanceStore.CreateUser | backend/server.py:265-276 | an email already taken is rejected with nothing changed; otherwise the user is appended; unique emails stay unique |
| Store.FinanceStore.GetUser | backend/server.py:278-283 | not found exactly when no user has the id; otherwise a stored user with that id |
| Store.FinanceStore.UpdateUser | backend/server.py:285-293 | not found, with nothing changed, when no user has the id; otherwise only the first such user has the update applied |
| Store.FinanceStore.AddIncome | backend/server.py:295-303 | appends the income with month and year taken from its date, and keeps every stored record dated |
| Store.FinanceStore.AddExpense | backend/server.py:314-322 | the same for expenses; the created expense is then among the month's expenses of its user for its date, and every stored expense is listed under the month of its own date |
| Store.DatedMonthlyExpenses | backend/server.py:156-158 | in a collection whose records are dated, a user's month's expenses are exactly the user's records with a date in that month |
| Store.DatedListedByDate | backend/server.py:316-319 | when every stored expense carries its date's month and year, every one is listed among its user's expenses for the month of its date |
| Store.FinanceStore.DeleteExpense | backend/server.py:333-338 | not found, with nothing changed, when no expense has the id; otherwise exactly the first such expense is removed and the rest keep their order; every remaining expense is still listed under the month of its own date |

## Left out

- HTTP routing, status codes, CORS, JSON encoding (`convert_object_id`, `CustomJSONEncoder`, `jsonable_encoder`) and the health route: these are transport concerns outside the computation.
- The Mongo client, connections and the generated `_id` field: a collection is a `seq`, and a query a filter over it.
- Floating-point arithmetic: amounts and percentages are exact `real`, so rounding in sums and divisions is not modelled.
- Time of day and time zones: a date is year, month and day. The current time (`datetime.utcnow`) is the `now` parameter.
- Default identifiers from `uuid4` and default dates: callers pass complete records.
- Startup seeding (`startup_event`) and the category listing route: the seeded data is `Finance.DefaultCategories`, but the insertion at startup and `GET /api/categories` are not modelled. The store takes its category directory from the constructor.
- Pydantic validation of request bodies: records are well-typed values.
- `user.get("monthly_budget", 0)`: every modelled user has a budget field, so the default for a missing field does not arise.
- Store.FinanceStore.UpdateUser: the source applies any `$set` document, including unknown keys and the `id` field. The model's update covers name, email and monthly budget only.
- CategoryBreakdown.Categorize: the breakdown's key order (first occurrence among the expenses) is built faithfully, but no lemma states it. The proved properties cover its keys, totals and sum.
- Analysis.Analyze: its contract ties the savings rate and the comparison to `SavingsRate` and `Compare` and states the difference directly. The meaning of the rate for positive income and of the percentage change is stated about those two functions, by `Analysis.SavingsRateMeaning` and `Analysis.ComparisonMeaning`.
- The previous month's income, which the analysis route fetches and never uses, plays no part in the model.
- Concurrency between requests, including the same `now` being observed twice: each report is a function of one snapshot of the store.
