/** The monthly filter (`get_monthly_data`) and the filtered list routes for income and expenses. */
module MonthlyData {
  import opened Wrappers
  import opened Seqs
  import opened Finance

  predicate IncomeInPeriod(i: Income, userId: string, month: int, year: int)
  {
    i.userId == userId && i.month == month && i.year == year
  }

  predicate ExpenseInPeriod(e: Expense, userId: string, month: int, year: int)
  {
    e.userId == userId && e.month == month && e.year == year
  }

  function IncomeIn(userId: string, month: int, year: int): Income -> bool
  {
    (i: Income) => IncomeInPeriod(i, userId, month, year)
  }

  function ExpenseIn(userId: string, month: int, year: int): Expense -> bool
  {
    (e: Expense) => ExpenseInPeriod(e, userId, month, year)
  }

  /** The income half of `get_monthly_data`: the records of `userId` for `(month, year)`. */
  function MonthlyIncome(incomes: seq<Income>, userId: string, month: int, year: int): (r: seq<Income>)
    ensures forall i :: 0 <= i < |r| ==> r[i] in incomes && IncomeInPeriod(r[i], userId, month, year)
    ensures forall i :: 0 <= i < |incomes| && IncomeInPeriod(incomes[i], userId, month, year) ==> incomes[i] in r
  {
    FilterMembers(incomes, IncomeIn(userId, month, year));
    Filter(incomes, IncomeIn(userId, month, year))
  }

  /** The expense half of `get_monthly_data`. */
  function MonthlyExpenses(expenses: seq<Expense>, userId: string, month: int, year: int): (r: seq<Expense>)
    ensures forall i :: 0 <= i < |r| ==> r[i] in expenses && ExpenseInPeriod(r[i], userId, month, year)
    ensures forall i :: 0 <= i < |expenses| && ExpenseInPeriod(expenses[i], userId, month, year) ==> expenses[i] in r
  {
    FilterMembers(expenses, ExpenseIn(userId, month, year));
    Filter(expenses, ExpenseIn(userId, month, year))
  }

  /** Store order: a record appended to the collection is appended to the result exactly when
      it matches, so the result lists the matching records in insertion order. */
  lemma MonthlyIncomeAppend(incomes: seq<Income>, x: Income, userId: string, month: int, year: int)
    ensures MonthlyIncome(incomes + [x], userId, month, year)
         == MonthlyIncome(incomes, userId, month, year)
          + (if IncomeInPeriod(x, userId, month, year) then [x] else [])
  {
    FilterConcat(incomes, [x], IncomeIn(userId, month, year));
  }

  lemma MonthlyExpensesAppend(expenses: seq<Expense>, x: Expense, userId: string, month: int, year: int)
    ensures MonthlyExpenses(expenses + [x], userId, month, year)
         == MonthlyExpenses(expenses, userId, month, year)
          + (if ExpenseInPeriod(x, userId, month, year) then [x] else [])
  {
    FilterConcat(expenses, [x], ExpenseIn(userId, month, year));
  }

  /** No matching record gives an empty result, not an error. */
  lemma MonthlyExpensesNoMatch(expenses: seq<Expense>, userId: string, month: int, year: int)
    requires forall i :: 0 <= i < |expenses| ==> !ExpenseInPeriod(expenses[i], userId, month, year)
    ensures MonthlyExpenses(expenses, userId, month, year) == []
  {
    FilterNone(expenses, ExpenseIn(userId, month, year));
  }

  /** `if month and year`: the period filter applies only when both are given and non-zero. */
  predicate PeriodGiven(month: Option<int>, year: Option<int>)
  {
    month.Some? && month.value != 0 && year.Some? && year.value != 0
  }

  /** Whether a list route returns the record: it is the user's, and in the period if one is given. */
  predicate IncomeListed(i: Income, userId: string, month: Option<int>, year: Option<int>)
  {
    i.userId == userId && (PeriodGiven(month, year) ==> i.month == month.value && i.year == year.value)
  }

  predicate ExpenseListed(e: Expense, userId: string, month: Option<int>, year: Option<int>)
  {
    e.userId == userId && (PeriodGiven(month, year) ==> e.month == month.value && e.year == year.value)
  }

  function IncomeOf(userId: string): Income -> bool
  {
    (i: Income) => i.userId == userId
  }

  function ExpenseOf(userId: string): Expense -> bool
  {
    (e: Expense) => e.userId == userId
  }

  /** `GET /api/income/{user_id}`: the user's income, narrowed to the period when one is given. */
  function ListIncome(incomes: seq<Income>, userId: string, month: Option<int>, year: Option<int>): (r: seq<Income>)
    ensures forall i :: 0 <= i < |r| ==> r[i] in incomes && IncomeListed(r[i], userId, month, year)
    ensures forall i :: 0 <= i < |incomes| && IncomeListed(incomes[i], userId, month, year) ==> incomes[i] in r
  {
    if PeriodGiven(month, year) then MonthlyIncome(incomes, userId, month.value, year.value)
    else FilterMembers(incomes, IncomeOf(userId)); Filter(incomes, IncomeOf(userId))
  }

  /** `GET /api/expenses/{user_id}`, the same filter over expenses. */
  function ListExpenses(expenses: seq<Expense>, userId: string, month: Option<int>, year: Option<int>): (r: seq<Expense>)
    ensures forall i :: 0 <= i < |r| ==> r[i] in expenses && ExpenseListed(r[i], userId, month, year)
    ensures forall i :: 0 <= i < |expenses| && ExpenseListed(expenses[i], userId, month, year) ==> expenses[i] in r
  {
    if PeriodGiven(month, year) then MonthlyExpenses(expenses, userId, month.value, year.value)
    else FilterMembers(expenses, ExpenseOf(userId)); Filter(expenses, ExpenseOf(userId))
  }

  /** `if not month or not year`: an analysis or recommendations request without both a month
      and a year uses the current month and year, taken once per request from `now`. */
  function ResolvePeriod(month: Option<int>, year: Option<int>, now: DateTime): (int, int)
  {
    if PeriodGiven(month, year) then (month.value, year.value) else (now.month, now.year)
  }
}
