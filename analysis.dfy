/** The analysis route (`get_spending_analysis`): totals, breakdown, overspending, savings rate
    and the comparison with the previous calendar month. */
module Analysis {
  import opened Wrappers
  import opened Seqs
  import opened Finance
  import opened MonthlyData
  import opened CategoryBreakdown
  import opened Ranking
  import opened OverspendingDetector

  /** `prev_month = month - 1 if month > 1 else 12`, `prev_year = year if month > 1 else year - 1`. */
  function PreviousPeriod(month: int, year: int): (int, int)
  {
    if month > 1 then (month - 1, year) else (12, year - 1)
  }

  /** The calendar month after `(month, year)`: the inverse of the rollback. */
  function NextPeriod(month: int, year: int): (int, int)
  {
    if month < 12 then (month + 1, year) else (1, year + 1)
  }

  /** Months counted from January of year 0. */
  function MonthIndex(month: int, year: int): int
  {
    year * 12 + (month - 1)
  }

  /** For a real month, the previous period is the calendar month just before it: a valid month,
      one step back on the month count, and undone by `NextPeriod`. */
  lemma PreviousPeriodIsPrecedingMonth(month: int, year: int)
    requires 1 <= month <= 12
    ensures var (m, y) := PreviousPeriod(month, year);
      && 1 <= m <= 12
      && MonthIndex(m, y) == MonthIndex(month, year) - 1
      && NextPeriod(m, y) == (month, year)
      && PreviousPeriod(NextPeriod(month, year).0, NextPeriod(month, year).1) == (month, year)
  {
  }

  /** January rolls back to December of the year before, as does any month number below 2,
      since the source tests `month > 1` only. */
  lemma JanuaryRollsBack(month: int, year: int)
    requires month <= 1
    ensures PreviousPeriod(month, year) == (12, year - 1)
  {
  }

  /** `(remaining_budget / total_income * 100) if total_income > 0 else 0`. */
  function SavingsRate(totalIncome: real, remaining: real): real
  {
    if totalIncome > 0.0 then remaining / totalIncome * 100.0 else 0.0
  }

  /** The savings rate is the remaining budget as a percentage of income: it gives back the
      remaining budget, it is at most 100 when no expense is negative, and it is non-negative
      exactly when expenses do not exceed income. Without positive income it is 0. */
  lemma SavingsRateMeaning(totalIncome: real, totalExpenses: real)
    ensures var rate := SavingsRate(totalIncome, totalIncome - totalExpenses);
      && (totalIncome <= 0.0 ==> rate == 0.0)
      && (totalIncome > 0.0 ==> rate * totalIncome / 100.0 == totalIncome - totalExpenses)
      && (totalIncome > 0.0 && totalExpenses >= 0.0 ==> rate <= 100.0)
      && (totalIncome > 0.0 ==> (rate >= 0.0 <==> totalExpenses <= totalIncome))
  {
    if totalIncome > 0.0 {
      var q := (totalIncome - totalExpenses) / totalIncome;
      assert q * totalIncome == totalIncome - totalExpenses;
      if totalExpenses >= 0.0 {
        assert q <= 1.0;
      }
      assert q >= 0.0 <==> totalExpenses <= totalIncome by {
        if q < 0.0 {
          assert q * totalIncome < 0.0;
        }
        if totalExpenses > totalIncome {
          assert q * totalIncome < 0.0;
        }
      }
    }
  }

  /** `month_comparison`: this month's and last month's expense totals, their difference and
      the relative change, 0 unless last month's total is positive. */
  function Compare(current: real, previous: real): MonthComparison
  {
    MonthComparison(current, previous, current - previous,
                    if previous > 0.0 then (current - previous) / previous * 100.0 else 0.0)
  }

  /** The percentage change gives back this month's total from last month's, and its sign is
      the direction of the change; without positive spend last month it is 0. */
  lemma ComparisonMeaning(current: real, previous: real)
    ensures var c := Compare(current, previous);
      && c.difference == c.currentMonth - c.previousMonth
      && (previous <= 0.0 ==> c.percentageChange == 0.0)
      && (previous > 0.0 ==> previous + previous * c.percentageChange / 100.0 == current)
      && (previous > 0.0 ==> (c.percentageChange > 0.0 <==> current > previous))
  {
    if previous > 0.0 {
      var q := (current - previous) / previous;
      assert q * previous == current - previous;
      assert q > 0.0 <==> current > previous by {
        if q > 0.0 {
          assert q * previous > 0.0;
        }
        if q <= 0.0 {
          assert q * previous <= 0.0;
        }
      }
    }
  }

  /** `get_spending_analysis(user_id, month, year)` once the period is known. */
  function Analyze(users: seq<User>, incomes: seq<Income>, expenses: seq<Expense>, cats: seq<Category>,
                   userId: string, month: int, year: int): (r: Result<SpendingAnalysis, Error>)
    ensures r.Err? <==> Overspending(users, expenses, cats, userId, month, year).Err?
    ensures r.Ok? ==>
      && r.value.totalIncome == Sum(MonthlyIncome(incomes, userId, month, year), IncomeAmount)
      && r.value.totalExpenses == Sum(MonthlyExpenses(expenses, userId, month, year), ExpenseAmount)
      && r.value.remainingBudget == r.value.totalIncome - r.value.totalExpenses
      && r.value.categoryBreakdown == Categorize(MonthlyExpenses(expenses, userId, month, year), cats)
      && r.value.overspendingCategories == Overspending(users, expenses, cats, userId, month, year).value
      && r.value.savingsRate == SavingsRate(r.value.totalIncome, r.value.remainingBudget)
      && (r.value.totalIncome <= 0.0 ==> r.value.savingsRate == 0.0)
      && r.value.monthComparison == Compare(r.value.totalExpenses, r.value.monthComparison.previousMonth)
      && r.value.monthComparison.currentMonth == r.value.totalExpenses
      && r.value.monthComparison.difference == r.value.totalExpenses - r.value.monthComparison.previousMonth
      && r.value.monthComparison.previousMonth
         == Sum(MonthlyExpenses(expenses, userId, PreviousPeriod(month, year).0, PreviousPeriod(month, year).1),
                ExpenseAmount)
  {
    var monthly := MonthlyExpenses(expenses, userId, month, year);
    var totalIncome := Sum(MonthlyIncome(incomes, userId, month, year), IncomeAmount);
    var totalExpenses := Sum(monthly, ExpenseAmount);
    var remaining := totalIncome - totalExpenses;
    var breakdown := Categorize(monthly, cats);
    match Overspending(users, expenses, cats, userId, month, year)
    case Err(e) => Err(e)
    case Ok(overspending) =>
      var (pm, py) := PreviousPeriod(month, year);
      var previous := Sum(MonthlyExpenses(expenses, userId, pm, py), ExpenseAmount);
      Ok(SpendingAnalysis(totalIncome, totalExpenses, remaining, breakdown, overspending,
                          SavingsRate(totalIncome, remaining), Compare(totalExpenses, previous)))
  }

  /** `GET /api/analysis/{user_id}`: the period defaults to the current month of `now`. */
  function GetSpendingAnalysis(users: seq<User>, incomes: seq<Income>, expenses: seq<Expense>, cats: seq<Category>,
                               userId: string, month: Option<int>, year: Option<int>, now: DateTime)
    : Result<SpendingAnalysis, Error>
  {
    var (m, y) := ResolvePeriod(month, year, now);
    Analyze(users, incomes, expenses, cats, userId, m, y)
  }

  /** The period of an analysis request is fixed once: a request naming a non-zero month and a
      non-zero year is answered for that period whatever the time, and any other request,
      including one naming a month without a year, for the month and year of `now`. */
  lemma AnalysisPeriod(users: seq<User>, incomes: seq<Income>, expenses: seq<Expense>, cats: seq<Category>,
                       userId: string, month: Option<int>, year: Option<int>, now: DateTime, later: DateTime)
    ensures PeriodGiven(month, year) ==>
      && GetSpendingAnalysis(users, incomes, expenses, cats, userId, month, year, now)
         == Analyze(users, incomes, expenses, cats, userId, month.value, year.value)
      && GetSpendingAnalysis(users, incomes, expenses, cats, userId, month, year, now)
         == GetSpendingAnalysis(users, incomes, expenses, cats, userId, month, year, later)
    ensures !PeriodGiven(month, year) ==>
      GetSpendingAnalysis(users, incomes, expenses, cats, userId, month, year, now)
      == Analyze(users, incomes, expenses, cats, userId, now.month, now.year)
    ensures GetSpendingAnalysis(users, incomes, expenses, cats, userId, month, None, now)
         == GetSpendingAnalysis(users, incomes, expenses, cats, userId, None, None, now)
  {
  }

  /** A user without a budget never sees overspending, whatever the expenses. */
  lemma NoBudgetNoOverspendingCategories(users: seq<User>, incomes: seq<Income>, expenses: seq<Expense>,
                                         cats: seq<Category>, userId: string, month: int, year: int)
    requires UserById(users, userId).Some? ==> UserById(users, userId).value.monthlyBudget == 0.0
    ensures Analyze(users, incomes, expenses, cats, userId, month, year).Ok?
    ensures Analyze(users, incomes, expenses, cats, userId, month, year).value.overspendingCategories == []
  {
  }

  /** When the category of every expense of the month exists, the breakdown's values add up to
      the month's total expenses. */
  lemma BreakdownAddsUpToTotal(users: seq<User>, incomes: seq<Income>, expenses: seq<Expense>,
                               cats: seq<Category>, userId: string, month: int, year: int)
    requires Analyze(users, incomes, expenses, cats, userId, month, year).Ok?
    requires var monthly := MonthlyExpenses(expenses, userId, month, year);
      forall i :: 0 <= i < |monthly| ==> CategoryById(cats, monthly[i].categoryId).Some?
    ensures var a := Analyze(users, incomes, expenses, cats, userId, month, year).value;
      Sum(a.categoryBreakdown, EntryTotal) == a.totalExpenses
  {
    var monthly := MonthlyExpenses(expenses, userId, month, year);
    BreakdownAccountsForAll(monthly, cats);
  }

  /** The previous-month figure of a January analysis counts the December expenses of the
      year before. */
  lemma JanuaryComparesWithDecember(users: seq<User>, incomes: seq<Income>, expenses: seq<Expense>,
                                    cats: seq<Category>, userId: string, year: int)
    requires Analyze(users, incomes, expenses, cats, userId, 1, year).Ok?
    ensures Analyze(users, incomes, expenses, cats, userId, 1, year).value.monthComparison.previousMonth
         == Sum(MonthlyExpenses(expenses, userId, 12, year - 1), ExpenseAmount)
  {
  }
}
