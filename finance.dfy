/** The records of the personal-finance API (backend/server.py, the pydantic models) as values.
    Money and percentages are exact `real`s; identifiers and timestamps are supplied by the caller. */
module Finance {

  /** A `datetime`, reduced to the calendar fields the API reads. */
  datatype DateTime = DateTime(year: int, month: int, day: int)

  datatype User = User(id: string, name: string, email: string, monthlyBudget: real, createdAt: DateTime)

  /** A spending category; `budgetPercentage` is its notional share of a user's monthly budget. */
  datatype Category = Category(id: string, name: string, color: string, icon: string, budgetPercentage: real)

  /** An income entry; `month` and `year` are copies of the date's, set on insert. */
  datatype Income = Income(id: string, userId: string, amount: real, source: string,
                           date: DateTime, month: int, year: int)

  /** An expense; `categoryId` refers to a category, but nothing enforces that it exists. */
  datatype Expense = Expense(id: string, userId: string, amount: real, description: string,
                             categoryId: string, date: DateTime, month: int, year: int)

  /** One key/value pair of the category breakdown dict: a category name and its summed spend. */
  datatype Entry = Entry(name: string, total: real)

  /** One element of the overspending list ("category", "spent", "budget", "overspent", "percentage"). */
  datatype OverspendRecord = OverspendRecord(category: string, spent: real, budget: real,
                                             overspent: real, percentage: real)

  datatype SavingsRecommendation = SavingsRecommendation(category: string, currentSpending: real,
                                                         recommendedBudget: real, potentialSavings: real,
                                                         tips: seq<string>)

  datatype MonthComparison = MonthComparison(currentMonth: real, previousMonth: real,
                                             difference: real, percentageChange: real)

  datatype SpendingAnalysis = SpendingAnalysis(totalIncome: real, totalExpenses: real, remainingBudget: real,
                                               categoryBreakdown: seq<Entry>,
                                               overspendingCategories: seq<OverspendRecord>,
                                               savingsRate: real, monthComparison: MonthComparison)

  /** The errors the API raises: HTTP 400 "User already exists", the two 404s, and the
      ZeroDivisionError of the overspend percentage. */
  datatype Error = UserAlreadyExists | UserNotFound | ExpenseNotFound | DivisionByZero

  function IncomeAmount(i: Income): real { i.amount }

  function ExpenseAmount(e: Expense): real { e.amount }

  /** The nine categories seeded at startup, given the identifiers generated for them. */
  function DefaultCategories(ids: seq<string>): (r: seq<Category>)
    requires |ids| == 9
    ensures |r| == 9
    ensures forall i :: 0 <= i < 9 ==> r[i].id == ids[i] && r[i].budgetPercentage > 0.0
    ensures forall i, j :: 0 <= i < j < 9 ==> r[i].name != r[j].name
  {
    [ Category(ids[0], "Food & Dining", "#3B82F6", "\U{1F37D}\U{FE0F}", 15.0),
      Category(ids[1], "Transportation", "#10B981", "\U{1F697}", 12.0),
      Category(ids[2], "Entertainment", "#F59E0B", "\U{1F3AC}", 8.0),
      Category(ids[3], "Bills & Utilities", "#EF4444", "\U{26A1}", 25.0),
      Category(ids[4], "Healthcare", "#8B5CF6", "\U{1F3E5}", 10.0),
      Category(ids[5], "Shopping", "#EC4899", "\U{1F6CD}\U{FE0F}", 10.0),
      Category(ids[6], "Housing", "#6B7280", "\U{1F3E0}", 30.0),
      Category(ids[7], "Education", "#14B8A6", "\U{1F4DA}", 5.0),
      Category(ids[8], "Other", "#94A3B8", "\U{1F4E6}", 5.0) ]
  }
}
