/** The document store behind the CRUD routes: four collections held in memory and updated in
    place by `create_user`, `update_user`, `add_income`, `add_expense` and `delete_expense`. */
module Store {
  import opened Wrappers
  import opened Seqs
  import opened Finance
  import opened MonthlyData
  import opened OverspendingDetector

  /** The fields a `PUT /api/users/{user_id}` body may set; absent fields are left alone. */
  datatype UserUpdate = UserUpdate(name: Option<string>, email: Option<string>, monthlyBudget: Option<real>)

  /** `{"$set": user_update}` applied to one user document. */
  function ApplyUpdate(u: User, upd: UserUpdate): User
  {
    u.(name := if upd.name.Some? then upd.name.value else u.name,
       email := if upd.email.Some? then upd.email.value else u.email,
       monthlyBudget := if upd.monthlyBudget.Some? then upd.monthlyBudget.value else u.monthlyBudget)
  }

  /** An update changes exactly the fields it names, keeps the others, and setting the values a
      user already has changes nothing. */
  lemma ApplyUpdateMeaning(u: User, upd: UserUpdate)
    ensures var r := ApplyUpdate(u, upd);
      && r.id == u.id && r.createdAt == u.createdAt
      && (upd.name.Some? ==> r.name == upd.name.value) && (upd.name.None? ==> r.name == u.name)
      && (upd.email.Some? ==> r.email == upd.email.value) && (upd.email.None? ==> r.email == u.email)
      && (upd.monthlyBudget.Some? ==> r.monthlyBudget == upd.monthlyBudget.value)
      && (upd.monthlyBudget.None? ==> r.monthlyBudget == u.monthlyBudget)
      && ApplyUpdate(r, upd) == r
  {
  }

  /** The invariant of the income and expense collections: month and year copy the date's. */
  predicate IncomeDated(i: Income)
  {
    i.month == i.date.month && i.year == i.date.year
  }

  predicate ExpenseDated(e: Expense)
  {
    e.month == e.date.month && e.year == e.date.year
  }

  /** `income.month = income.date.month; income.year = income.date.year`. */
  function StampIncome(i: Income): (r: Income)
    ensures IncomeDated(r)
    ensures r.(month := i.month, year := i.year) == i
  {
    i.(month := i.date.month, year := i.date.year)
  }

  function StampExpense(e: Expense): (r: Expense)
    ensures ExpenseDated(r)
    ensures r.(month := e.month, year := e.year) == e
  {
    e.(month := e.date.month, year := e.date.year)
  }

  /** Whether some user already has `email` (`find_one({"email": ...})` finds a document). */
  predicate EmailTaken(users: seq<User>, email: string)
  {
    exists i :: 0 <= i < |users| && users[i].email == email
  }

  /** No two users share an email address. */
  predicate UniqueEmails(users: seq<User>)
  {
    forall i, j :: 0 <= i < j < |users| ==> users[i].email != users[j].email
  }

  function ExpenseIdIs(id: string): Expense -> bool
  {
    (e: Expense) => e.id == id
  }

  /** No two expenses share an identifier. */
  predicate UniqueExpenseIds(expenses: seq<Expense>)
  {
    forall i, j :: 0 <= i < j < |expenses| ==> expenses[i].id != expenses[j].id
  }

  /** After deleting the expense at `k` from a collection with unique identifiers, no listing
      returns an expense with its identifier any more. */
  lemma DeletedExpenseNotListed(expenses: seq<Expense>, k: nat, userId: string, month: Option<int>, year: Option<int>)
    requires UniqueExpenseIds(expenses) && k < |expenses|
    ensures forall e :: e in ListExpenses(expenses[..k] + expenses[k + 1..], userId, month, year) ==> e.id != expenses[k].id
  {
    var rest := expenses[..k] + expenses[k + 1..];
    forall i | 0 <= i < |rest|
      ensures rest[i].id != expenses[k].id
    {
      if i < k {
        assert rest[i] == expenses[i];
      } else {
        assert rest[i] == expenses[i + 1];
      }
    }
  }

  /** In a collection whose records are dated, the month's expenses of a user are exactly the
      user's records whose date falls in that month. */
  lemma DatedMonthlyExpenses(expenses: seq<Expense>, userId: string, month: int, year: int)
    requires forall i :: 0 <= i < |expenses| ==> ExpenseDated(expenses[i])
    ensures forall i :: 0 <= i < |expenses| ==>
      (expenses[i] in MonthlyExpenses(expenses, userId, month, year)
       <==> expenses[i].userId == userId && expenses[i].date.month == month && expenses[i].date.year == year)
  {
    var r := MonthlyExpenses(expenses, userId, month, year);
    forall i | 0 <= i < |expenses| && expenses[i] in r
      ensures ExpenseInPeriod(expenses[i], userId, month, year)
    {
      var k :| 0 <= k < |r| && r[k] == expenses[i];
    }
  }

  /** Every stored expense is listed among its user's expenses for the month of its own date. */
  predicate ListedByDate(expenses: seq<Expense>)
  {
    forall i :: 0 <= i < |expenses| ==>
      expenses[i] in MonthlyExpenses(expenses, expenses[i].userId, expenses[i].date.month, expenses[i].date.year)
  }

  /** Dated records are listed under their date's month: what the stamping of `add_expense`
      buys the monthly reports. */
  lemma DatedListedByDate(expenses: seq<Expense>)
    requires forall i :: 0 <= i < |expenses| ==> ExpenseDated(expenses[i])
    ensures ListedByDate(expenses)
  {
    forall i | 0 <= i < |expenses|
      ensures expenses[i] in MonthlyExpenses(expenses, expenses[i].userId, expenses[i].date.month, expenses[i].date.year)
    {
      DatedMonthlyExpenses(expenses, expenses[i].userId, expenses[i].date.month, expenses[i].date.year);
    }
  }

  class FinanceStore {
    var users: seq<User>
    var incomes: seq<Income>
    var expenses: seq<Expense>
    /** The category directory (`categories_collection`), which the report functions take as
        their `cats` argument; no route of the store changes it. */
    var categories: seq<Category>

    ghost predicate Valid()
      reads this
    {
      && (forall i :: 0 <= i < |incomes| ==> IncomeDated(incomes[i]))
      && (forall i :: 0 <= i < |expenses| ==> ExpenseDated(expenses[i]))
    }

    /** A store with the given category directory and no users, income or expenses. */
    constructor (categories: seq<Category>)
      ensures Valid()
      ensures users == [] && incomes == [] && expenses == [] && this.categories == categories
    {
      users, incomes, expenses := [], [], [];
      this.categories := categories;
    }

    /** `POST /api/users`: rejects an email already registered, otherwise inserts the user. */
    method CreateUser(user: User) returns (r: Result<User, Error>)
      modifies this`users
      ensures EmailTaken(old(users), user.email) ==> r == Err(UserAlreadyExists) && users == old(users)
      ensures !EmailTaken(old(users), user.email) ==> r == Ok(user) && users == old(users) + [user]
      ensures UniqueEmails(old(users)) ==> UniqueEmails(users)
    {
      var i := 0;
      while i < |users|
        invariant 0 <= i <= |users|
        invariant forall j :: 0 <= j < i ==> users[j].email != user.email
      {
        if users[i].email == user.email {
          return Err(UserAlreadyExists);
        }
        i := i + 1;
      }
      users := users + [user];
      r := Ok(user);
    }

    /** `GET /api/users/{user_id}`. */
    function GetUser(userId: string): (r: Result<User, Error>)
      reads this
      ensures r.Err? <==> forall i :: 0 <= i < |users| ==> users[i].id != userId
      ensures r.Err? ==> r.error == UserNotFound
      ensures r.Ok? ==> r.value.id == userId && r.value in users
    {
      match UserById(users, userId)
      case None => Err(UserNotFound)
      case Some(u) => Ok(u)
    }

    /** `PUT /api/users/{user_id}`: updates the first user with that identifier, or reports
        that none matched. */
    method UpdateUser(userId: string, upd: UserUpdate) returns (o: Outcome<Error>)
      modifies this`users
      ensures FirstIndex(old(users), UserIdIs(userId)).None? ==> o == Fail(UserNotFound) && users == old(users)
      ensures FirstIndex(old(users), UserIdIs(userId)).Some? ==>
        var k := FirstIndex(old(users), UserIdIs(userId)).value;
        o == Pass && users == old(users)[k := ApplyUpdate(old(users)[k], upd)]
    {
      match FirstIndex(users, UserIdIs(userId))
      case None =>
        return Fail(UserNotFound);
      case Some(k) =>
        users := users[k := ApplyUpdate(users[k], upd)];
        return Pass;
    }

    /** `POST /api/income`: stamps month and year from the date, then inserts. */
    method AddIncome(income: Income) returns (created: Income)
      requires Valid()
      modifies this`incomes
      ensures Valid()
      ensures created == StampIncome(income) && incomes == old(incomes) + [created]
    {
      created := StampIncome(income);
      incomes := incomes + [created];
    }

    /** `POST /api/expenses`: stamps month and year from the date, then inserts. */
    method AddExpense(expense: Expense) returns (created: Expense)
      requires Valid()
      modifies this`expenses
      ensures Valid()
      ensures created == StampExpense(expense) && expenses == old(expenses) + [created]
      ensures created in MonthlyExpenses(expenses, expense.userId, expense.date.month, expense.date.year)
      ensures ListedByDate(expenses)
    {
      created := StampExpense(expense);
      expenses := expenses + [created];
      DatedMonthlyExpenses(expenses, expense.userId, expense.date.month, expense.date.year);
      assert expenses[|expenses| - 1] == created;
      DatedListedByDate(expenses);
    }

    /** `DELETE /api/expenses/{expense_id}`: removes the first expense with that identifier, or
        reports that none was deleted. */
    method DeleteExpense(expenseId: string) returns (o: Outcome<Error>)
      requires Valid()
      modifies this`expenses
      ensures Valid()
      ensures FirstIndex(old(expenses), ExpenseIdIs(expenseId)).None? ==> o == Fail(ExpenseNotFound) && expenses == old(expenses)
      ensures FirstIndex(old(expenses), ExpenseIdIs(expenseId)).Some? ==>
        var k := FirstIndex(old(expenses), ExpenseIdIs(expenseId)).value;
        o == Pass && expenses == old(expenses)[..k] + old(expenses)[k + 1..]
      ensures ListedByDate(expenses)
    {
      match FirstIndex(expenses, ExpenseIdIs(expenseId))
      case None =>
        DatedListedByDate(expenses);
        return Fail(ExpenseNotFound);
      case Some(k) =>
        ghost var before := expenses;
        expenses := expenses[..k] + expenses[k + 1..];
        assert forall i :: 0 <= i < |expenses| ==> expenses[i] == (if i < k then before[i] else before[i + 1]);
        DatedListedByDate(expenses);
        return Pass;
    }
  }

  /** Only creation checks emails: an update may give a user an email another user already has. */
  lemma UpdateCanDuplicateEmail(first: User, second: User)
    requires first.email != second.email
    ensures UniqueEmails([first, second])
    ensures !UniqueEmails([first, second][1 := ApplyUpdate(second, UserUpdate(None, Some(first.email), None))])
  {
    var after := [first, second][1 := ApplyUpdate(second, UserUpdate(None, Some(first.email), None))];
    assert after[0].email == after[1].email;
  }
}
