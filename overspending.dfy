/** The overspending detector (`detect_overspending`). */
module OverspendingDetector {
  import opened Wrappers
  import opened Seqs
  import opened Finance
  import opened MonthlyData
  import opened CategoryBreakdown
  import opened Ranking

  function UserIdIs(id: string): User -> bool
  {
    (u: User) => u.id == id
  }

  /** `users_collection.find_one({"id": user_id})`: the first user with that identifier. */
  function UserById(users: seq<User>, id: string): (r: Option<User>)
    ensures r.None? <==> forall i :: 0 <= i < |users| ==> users[i].id != id
    ensures r.Some? ==> r.value.id == id && exists k :: 0 <= k < |users| && users[k] == r.value && FirstWithId(users, k, id)
  {
    match FirstIndex(users, UserIdIs(id))
    case None => None
    case Some(k) => Some(users[k])
  }

  /** No user before position `k` has identifier `id`. */
  predicate FirstWithId(users: seq<User>, k: nat, id: string)
  {
    forall j :: 0 <= j < k && j < |users| ==> users[j].id != id
  }

  function NameIs(name: string): Category -> bool
  {
    (c: Category) => c.name == name
  }

  /** No category after position `k` is named `name`. */
  predicate LastWithName(cats: seq<Category>, k: nat, name: string)
  {
    forall j :: k < j < |cats| ==> cats[j].name != name
  }

  /** The lookup `categories[category_name]` in a dict keyed by name: when two categories share
      a name, the later one's percentage is the one used. */
  function CategoryByName(cats: seq<Category>, name: string): (r: Option<Category>)
    ensures r.None? <==> forall i :: 0 <= i < |cats| ==> cats[i].name != name
    ensures r.Some? ==> r.value.name == name && exists k :: 0 <= k < |cats| && cats[k] == r.value && LastWithName(cats, k, name)
  {
    match LastIndex(cats, NameIs(name))
    case None => None
    case Some(k) => Some(cats[k])
  }

  /** `monthly_budget * (budget_percentage / 100)`: the category's share of the budget. */
  function ExpectedBudget(monthlyBudget: real, c: Category): real
  {
    monthlyBudget * (c.budgetPercentage / 100.0)
  }

  /** The expected budget of the category named `name`, if the directory has one. */
  function Allocation(cats: seq<Category>, monthlyBudget: real, name: string): Option<real>
  {
    match CategoryByName(cats, name)
    case None => None
    case Some(c) => Some(ExpectedBudget(monthlyBudget, c))
  }

  /** `spent > expected_budget` for a breakdown entry whose category is in the directory. */
  predicate Exceeds(e: Entry, cats: seq<Category>, monthlyBudget: real)
  {
    var a := Allocation(cats, monthlyBudget, e.name);
    a.Some? && e.total > a.value
  }

  /** An entry for which the percentage computation divides by a zero expected budget. */
  predicate DividesByZero(e: Entry, cats: seq<Category>, monthlyBudget: real)
  {
    Exceeds(e, cats, monthlyBudget) && Allocation(cats, monthlyBudget, e.name).value == 0.0
  }

  /** No entry of the breakdown divides by zero, checked from the last entry back. */
  predicate DivisionSafe(b: seq<Entry>, cats: seq<Category>, monthlyBudget: real)
  {
    b == [] || (DivisionSafe(b[..|b| - 1], cats, monthlyBudget) && !DividesByZero(b[|b| - 1], cats, monthlyBudget))
  }

  /** The breakdown is safe exactly when none of its entries divides by zero. */
  lemma {:induction false} DivisionSafeMeaning(b: seq<Entry>, cats: seq<Category>, monthlyBudget: real)
    ensures DivisionSafe(b, cats, monthlyBudget) <==> forall i :: 0 <= i < |b| ==> !DividesByZero(b[i], cats, monthlyBudget)
  {
    if b != [] {
      var init := b[..|b| - 1];
      DivisionSafeMeaning(init, cats, monthlyBudget);
      assert forall i :: 0 <= i < |init| ==> init[i] == b[i];
    }
  }

  /** The record emitted for a category spending `spent` against an expected budget `expected`. */
  function Record(name: string, spent: real, expected: real): OverspendRecord
    requires expected != 0.0
  {
    OverspendRecord(name, spent, expected, spent - expected, (spent - expected) / expected * 100.0)
  }

  /** What a record of the output means: its category is in the directory, `budget` is that
      category's expected budget, the spend strictly exceeds it, `overspent` is the positive
      excess and `percentage` is the excess relative to the budget. */
  predicate Describes(r: OverspendRecord, cats: seq<Category>, monthlyBudget: real)
  {
    && Allocation(cats, monthlyBudget, r.category) == Some(r.budget)
    && r.budget != 0.0
    && r.spent > r.budget
    && r.overspent == r.spent - r.budget
    && r.overspent > 0.0
    && r.percentage == r.overspent / r.budget * 100.0
  }

  function Emit(e: Entry, cats: seq<Category>, monthlyBudget: real): seq<OverspendRecord>
    requires !DividesByZero(e, cats, monthlyBudget)
  {
    if Exceeds(e, cats, monthlyBudget) then [Record(e.name, e.total, Allocation(cats, monthlyBudget, e.name).value)]
    else []
  }

  /** A safe breakdown has a safe prefix and a last entry that does not divide by zero. */
  lemma DivisionSafePrefix(b: seq<Entry>, e: Entry, cats: seq<Category>, monthlyBudget: real)
    requires DivisionSafe(b + [e], cats, monthlyBudget)
    ensures DivisionSafe(b, cats, monthlyBudget) && !DividesByZero(e, cats, monthlyBudget)
  {
    assert (b + [e])[..|b|] == b;
  }

  /** The list the loop of `detect_overspending` builds before sorting, in breakdown order. */
  function Emitted(b: seq<Entry>, cats: seq<Category>, monthlyBudget: real): seq<OverspendRecord>
    requires DivisionSafe(b, cats, monthlyBudget)
  {
    if b == [] then []
    else
      assert b == b[..|b| - 1] + [b[|b| - 1]];
      DivisionSafePrefix(b[..|b| - 1], b[|b| - 1], cats, monthlyBudget);
      Emitted(b[..|b| - 1], cats, monthlyBudget) + Emit(b[|b| - 1], cats, monthlyBudget)
  }

  /** One more safe entry keeps the breakdown safe and appends its own record, if any. */
  lemma EmittedSnoc(b: seq<Entry>, e: Entry, cats: seq<Category>, monthlyBudget: real)
    requires DivisionSafe(b, cats, monthlyBudget) && !DividesByZero(e, cats, monthlyBudget)
    ensures DivisionSafe(b + [e], cats, monthlyBudget)
    ensures Emitted(b + [e], cats, monthlyBudget) == Emitted(b, cats, monthlyBudget) + Emit(e, cats, monthlyBudget)
  {
    assert (b + [e])[..|b|] == b;
  }

  /** Soundness of the loop: every record stems from a breakdown entry and describes a true
      overspend of that entry. */
  lemma {:induction false} EmittedSound(b: seq<Entry>, cats: seq<Category>, monthlyBudget: real, j: nat)
    requires DivisionSafe(b, cats, monthlyBudget)
    requires j < |Emitted(b, cats, monthlyBudget)|
    ensures var r := Emitted(b, cats, monthlyBudget)[j];
      Entry(r.category, r.spent) in b && Describes(r, cats, monthlyBudget)
  {
    var init := b[..|b| - 1];
    assert DivisionSafe(init, cats, monthlyBudget);
    if j < |Emitted(init, cats, monthlyBudget)| {
      EmittedSound(init, cats, monthlyBudget, j);
      SoundEarlier(b, cats, monthlyBudget, j);
    } else {
      SoundLast(b, cats, monthlyBudget, j);
    }
  }

  /** A record stemming from the entries before the last one keeps its meaning in the whole. */
  lemma SoundEarlier(b: seq<Entry>, cats: seq<Category>, monthlyBudget: real, j: nat)
    requires b != [] && DivisionSafe(b, cats, monthlyBudget) && DivisionSafe(b[..|b| - 1], cats, monthlyBudget)
    requires j < |Emitted(b[..|b| - 1], cats, monthlyBudget)|
    requires var r := Emitted(b[..|b| - 1], cats, monthlyBudget)[j];
      Entry(r.category, r.spent) in b[..|b| - 1] && Describes(r, cats, monthlyBudget)
    ensures j < |Emitted(b, cats, monthlyBudget)|
    ensures var r := Emitted(b, cats, monthlyBudget)[j];
      Entry(r.category, r.spent) in b && Describes(r, cats, monthlyBudget)
  {
    var init, e := b[..|b| - 1], b[|b| - 1];
    assert b == init + [e];
    EmittedSnoc(init, e, cats, monthlyBudget);
    assert Emitted(b, cats, monthlyBudget)[j] == Emitted(init, cats, monthlyBudget)[j];
  }

  /** A record beyond those of the earlier entries is the last entry's own. */
  lemma SoundLast(b: seq<Entry>, cats: seq<Category>, monthlyBudget: real, j: nat)
    requires b != [] && DivisionSafe(b, cats, monthlyBudget) && DivisionSafe(b[..|b| - 1], cats, monthlyBudget)
    requires |Emitted(b[..|b| - 1], cats, monthlyBudget)| <= j < |Emitted(b, cats, monthlyBudget)|
    ensures var r := Emitted(b, cats, monthlyBudget)[j];
      Entry(r.category, r.spent) in b && Describes(r, cats, monthlyBudget)
  {
    var init, e := b[..|b| - 1], b[|b| - 1];
    assert b == init + [e];
    EmittedSnoc(init, e, cats, monthlyBudget);
    EmitSound(e, cats, monthlyBudget);
    var n := |Emitted(init, cats, monthlyBudget)|;
    assert Emitted(b, cats, monthlyBudget)[j] == Emit(e, cats, monthlyBudget)[j - n];
  }

  /** The record of a single entry describes an overspend of that very entry. */
  lemma EmitSound(e: Entry, cats: seq<Category>, monthlyBudget: real)
    requires !DividesByZero(e, cats, monthlyBudget)
    ensures forall r :: r in Emit(e, cats, monthlyBudget) ==> Entry(r.category, r.spent) == e && Describes(r, cats, monthlyBudget)
  {
  }

  /** Completeness of the loop: every entry over its allocation has its record. */
  lemma {:induction false} EmittedComplete(b: seq<Entry>, cats: seq<Category>, monthlyBudget: real, i: nat)
    requires DivisionSafe(b, cats, monthlyBudget)
    requires i < |b| && Exceeds(b[i], cats, monthlyBudget)
    requires Allocation(cats, monthlyBudget, b[i].name).value != 0.0
    ensures Record(b[i].name, b[i].total, Allocation(cats, monthlyBudget, b[i].name).value)
            in Emitted(b, cats, monthlyBudget)
  {
    var init, e := b[..|b| - 1], b[|b| - 1];
    assert b == init + [e];
    EmittedSnoc(init, e, cats, monthlyBudget);
    if i < |init| {
      assert init[i] == b[i];
      EmittedComplete(init, cats, monthlyBudget, i);
    }
  }

  /** `detect_overspending(user_id, month, year)`: nothing without a known user or with a zero
      budget; a ZeroDivisionError when a category over its allocation has a zero expected budget;
      otherwise the emitted records, largest overspend first. */
  function Overspending(users: seq<User>, expenses: seq<Expense>, cats: seq<Category>,
                        userId: string, month: int, year: int): (r: Result<seq<OverspendRecord>, Error>)
    ensures UserById(users, userId).None? ==> r == Ok([])
    ensures UserById(users, userId).Some? && UserById(users, userId).value.monthlyBudget == 0.0 ==> r == Ok([])
    ensures r.Err? ==> r.error == DivisionByZero
    ensures r.Err? <==>
      var breakdown := Categorize(MonthlyExpenses(expenses, userId, month, year), cats);
      && UserById(users, userId).Some?
      && UserById(users, userId).value.monthlyBudget != 0.0
      && exists i :: 0 <= i < |breakdown| && DividesByZero(breakdown[i], cats, UserById(users, userId).value.monthlyBudget)
    ensures r.Ok? ==> SortedByOverspent(r.value)
  {
    var breakdown := Categorize(MonthlyExpenses(expenses, userId, month, year), cats);
    match UserById(users, userId)
    case None => Ok([])
    case Some(u) =>
      DivisionSafeMeaning(breakdown, cats, u.monthlyBudget);
      if u.monthlyBudget == 0.0 then Ok([])
      else if !DivisionSafe(breakdown, cats, u.monthlyBudget) then Err(DivisionByZero)
      else Ok(SortByOverspent(Emitted(breakdown, cats, u.monthlyBudget)))
  }

  /** The month's spend on categories named `name`. */
  function SpendOn(expenses: seq<Expense>, cats: seq<Category>, userId: string, month: int, year: int,
                   name: string): real
  {
    Sum(Filter(MonthlyExpenses(expenses, userId, month, year), SpentOnFn(cats, name)), ExpenseAmount)
  }

  /** Every record of the output is a true overspend: its spend is the month's total for that
      category name, its budget the category's allocation, and the derived fields follow. */
  lemma OverspendingSound(users: seq<User>, expenses: seq<Expense>, cats: seq<Category>,
                          userId: string, month: int, year: int, j: nat)
    requires Overspending(users, expenses, cats, userId, month, year).Ok?
    requires j < |Overspending(users, expenses, cats, userId, month, year).value|
    ensures var r := Overspending(users, expenses, cats, userId, month, year).value[j];
      && UserById(users, userId).Some?
      && Describes(r, cats, UserById(users, userId).value.monthlyBudget)
      && r.spent == SpendOn(expenses, cats, userId, month, year, r.category)
  {
    var u := UserById(users, userId).value;
    var monthly := MonthlyExpenses(expenses, userId, month, year);
    var b := Categorize(monthly, cats);
    var emitted := Emitted(b, cats, u.monthlyBudget);
    var k := SortedFrom(emitted, j);
    EmittedSound(b, cats, u.monthlyBudget, k);
    BreakdownValue(monthly, cats, emitted[k].category, emitted[k].spent);
  }

  /** The position before sorting of the record at position `j` after it. */
  lemma SortedFrom(s: seq<OverspendRecord>, j: nat) returns (k: nat)
    requires j < |SortByOverspent(s)|
    ensures k < |s| && s[k] == SortByOverspent(s)[j]
  {
    assert SortByOverspent(s)[j] in multiset(s);
    k :| 0 <= k < |s| && s[k] == SortByOverspent(s)[j];
  }

  /** A breakdown entry's total is the month's spend on categories of its name. */
  lemma BreakdownValue(monthly: seq<Expense>, cats: seq<Category>, name: string, total: real)
    requires Entry(name, total) in Categorize(monthly, cats)
    ensures total == Sum(Filter(monthly, SpentOnFn(cats, name)), ExpenseAmount)
  {
    var b := Categorize(monthly, cats);
    var i :| 0 <= i < |b| && b[i] == Entry(name, total);
    TotalOfDistinct(b, i);
    CategorizeTotals(monthly, cats, name);
  }

  /** Completeness: a category name that the month's expenses resolve to, with spend strictly
      over its allocation, always has its record in the output. */
  lemma OverspendingComplete(users: seq<User>, expenses: seq<Expense>, cats: seq<Category>,
                             userId: string, month: int, year: int, name: string)
    requires Overspending(users, expenses, cats, userId, month, year).Ok?
    requires UserById(users, userId).Some? && UserById(users, userId).value.monthlyBudget != 0.0
    requires exists i :: 0 <= i < |MonthlyExpenses(expenses, userId, month, year)|
                      && SpentOn(MonthlyExpenses(expenses, userId, month, year)[i], cats, name)
    requires CategoryByName(cats, name).Some?
    requires ExpectedBudget(UserById(users, userId).value.monthlyBudget, CategoryByName(cats, name).value) != 0.0
    requires SpendOn(expenses, cats, userId, month, year, name)
           > ExpectedBudget(UserById(users, userId).value.monthlyBudget, CategoryByName(cats, name).value)
    ensures Record(name, SpendOn(expenses, cats, userId, month, year, name),
                   ExpectedBudget(UserById(users, userId).value.monthlyBudget, CategoryByName(cats, name).value))
            in Overspending(users, expenses, cats, userId, month, year).value
  {
    var u := UserById(users, userId).value;
    var monthly := MonthlyExpenses(expenses, userId, month, year);
    var b := Categorize(monthly, cats);
    assert DivisionSafe(b, cats, u.monthlyBudget);
    BreakdownRecord(monthly, cats, u.monthlyBudget, name);
    var emitted := Emitted(b, cats, u.monthlyBudget);
    var rec := Record(name, SpendOn(expenses, cats, userId, month, year, name),
                      ExpectedBudget(u.monthlyBudget, CategoryByName(cats, name).value));
    assert rec in emitted;
    assert rec in multiset(SortByOverspent(emitted));
  }

  /** The record of a resolved category name over its allocation is among those emitted. */
  lemma BreakdownRecord(monthly: seq<Expense>, cats: seq<Category>, monthlyBudget: real, name: string)
    requires DivisionSafe(Categorize(monthly, cats), cats, monthlyBudget)
    requires exists i :: 0 <= i < |monthly| && SpentOn(monthly[i], cats, name)
    requires CategoryByName(cats, name).Some?
    requires ExpectedBudget(monthlyBudget, CategoryByName(cats, name).value) != 0.0
    requires Sum(Filter(monthly, SpentOnFn(cats, name)), ExpenseAmount)
           > ExpectedBudget(monthlyBudget, CategoryByName(cats, name).value)
    ensures Record(name, Sum(Filter(monthly, SpentOnFn(cats, name)), ExpenseAmount),
                   ExpectedBudget(monthlyBudget, CategoryByName(cats, name).value))
            in Emitted(Categorize(monthly, cats), cats, monthlyBudget)
  {
    var b := Categorize(monthly, cats);
    CategorizeTotals(monthly, cats, name);
    CategorizeKeys(monthly, cats, name);
    var i := KeyIndex(b, name);
    TotalOfDistinct(b, i);
    assert Exceeds(b[i], cats, monthlyBudget);
    EmittedComplete(b, cats, monthlyBudget, i);
  }

  /** In a dict, the value under a key is the one stored at that key's position. */
  lemma {:induction false} TotalOfDistinct(b: seq<Entry>, i: nat)
    requires DistinctNames(b) && i < |b|
    ensures Total(b, b[i].name) == b[i].total
  {
    if i > 0 {
      TotalOfDistinct(b[1..], i - 1);
      KeysContain(b[1..], i - 1);
    }
  }

  lemma {:induction false} KeysContain(b: seq<Entry>, i: nat)
    requires i < |b|
    ensures b[i].name in Keys(b)
  {
    if i > 0 {
      KeysContain(b[1..], i - 1);
    }
  }

  /** The position of a key. */
  function KeyIndex(b: seq<Entry>, name: string): (i: nat)
    requires name in Keys(b)
    ensures i < |b| && b[i].name == name
  {
    if b[0].name == name then 0 else 1 + KeyIndex(b[1..], name)
  }

  /** The output is a permutation of the records emitted before sorting. */
  lemma OverspendingIsPermutation(users: seq<User>, expenses: seq<Expense>, cats: seq<Category>,
                                  userId: string, month: int, year: int)
    requires Overspending(users, expenses, cats, userId, month, year).Ok?
    requires UserById(users, userId).Some? && UserById(users, userId).value.monthlyBudget != 0.0
    ensures var b := Categorize(MonthlyExpenses(expenses, userId, month, year), cats);
      var budget := UserById(users, userId).value.monthlyBudget;
      && DivisionSafe(b, cats, budget)
      && multiset(Overspending(users, expenses, cats, userId, month, year).value) == multiset(Emitted(b, cats, budget))
  {
  }

  /** With every category's percentage positive (as in the seeded directory) and a non-zero
      budget, the percentage computation never divides by zero. */
  lemma PositivePercentagesNeverFail(users: seq<User>, expenses: seq<Expense>, cats: seq<Category>,
                                     userId: string, month: int, year: int)
    requires forall i :: 0 <= i < |cats| ==> cats[i].budgetPercentage > 0.0
    ensures Overspending(users, expenses, cats, userId, month, year).Ok?
  {
    var b := Categorize(MonthlyExpenses(expenses, userId, month, year), cats);
    match UserById(users, userId)
    case None =>
    case Some(u) =>
      if u.monthlyBudget != 0.0 {
        forall i | 0 <= i < |b| ensures !DividesByZero(b[i], cats, u.monthlyBudget) {
          var c := CategoryByName(cats, b[i].name);
          if c.Some? {
            var k :| 0 <= k < |cats| && cats[k] == c.value && LastWithName(cats, k, b[i].name);
            ProductNonZero(u.monthlyBudget, c.value.budgetPercentage / 100.0);
          }
        }
        DivisionSafeMeaning(b, cats, u.monthlyBudget);
      }
  }

  lemma ProductNonZero(x: real, y: real)
    requires x != 0.0 && y != 0.0
    ensures x * y != 0.0
  {
  }

  /** `detect_overspending`, as the source runs it: aggregate, look the user up, then collect. */
  method DetectOverspending(users: seq<User>, expenses: seq<Expense>, cats: seq<Category>,
                            userId: string, month: int, year: int) returns (r: Result<seq<OverspendRecord>, Error>)
    ensures r == Overspending(users, expenses, cats, userId, month, year)
  {
    var monthly := MonthlyExpenses(expenses, userId, month, year);
    var spending := CategorizeExpenses(monthly, cats);
    match UserById(users, userId)
    case None =>
      return Ok([]);
    case Some(u) =>
      if u.monthlyBudget == 0.0 {
        return Ok([]);
      }
      var collected := CollectOverspending(spending, cats, u.monthlyBudget);
      match collected
      case Err(e) =>
        return Err(e);
      case Ok(records) =>
        return Ok(SortByOverspent(records));
  }

  /** The loop of `detect_overspending`: walk the breakdown in order and append a record for
      each entry over its allocation; the percentage raises on a zero expected budget. */
  method CollectOverspending(b: seq<Entry>, cats: seq<Category>, monthlyBudget: real)
    returns (r: Result<seq<OverspendRecord>, Error>)
    ensures r.Ok? <==> DivisionSafe(b, cats, monthlyBudget)
    ensures r.Ok? ==> r.value == Emitted(b, cats, monthlyBudget)
    ensures r.Err? ==> r.error == DivisionByZero
  {
    var overspending := [];
    for i := 0 to |b|
      invariant DivisionSafe(b[..i], cats, monthlyBudget)
      invariant overspending == Emitted(b[..i], cats, monthlyBudget)
    {
      var e := b[i];
      ghost var before := overspending;
      match CategoryByName(cats, e.name) {
        case Some(c) =>
          var expected := ExpectedBudget(monthlyBudget, c);
          if e.total > expected {
            if expected == 0.0 {
              DividesByZeroUnsafe(b, i, cats, monthlyBudget);
              return Err(DivisionByZero);
            }
            overspending := overspending + [Record(e.name, e.total, expected)];
          }
        case None =>
      }
      assert !DividesByZero(e, cats, monthlyBudget) && overspending == before + Emit(e, cats, monthlyBudget);
      EmittedStep(b, i, cats, monthlyBudget);
    }
    assert b[..|b|] == b;
    return Ok(overspending);
  }

  /** The loop's step: a safe entry extends the safe prefix and appends its own records. */
  lemma EmittedStep(b: seq<Entry>, i: nat, cats: seq<Category>, monthlyBudget: real)
    requires i < |b| && DivisionSafe(b[..i], cats, monthlyBudget) && !DividesByZero(b[i], cats, monthlyBudget)
    ensures DivisionSafe(b[..i + 1], cats, monthlyBudget)
    ensures Emitted(b[..i + 1], cats, monthlyBudget) == Emitted(b[..i], cats, monthlyBudget) + Emit(b[i], cats, monthlyBudget)
  {
    assert b[..i + 1] == b[..i] + [b[i]];
    assert b[..i + 1][..i] == b[..i];
    EmittedSnoc(b[..i], b[i], cats, monthlyBudget);
  }

  /** One entry dividing by zero makes the whole breakdown unsafe. */
  lemma DividesByZeroUnsafe(b: seq<Entry>, i: nat, cats: seq<Category>, monthlyBudget: real)
    requires i < |b| && DividesByZero(b[i], cats, monthlyBudget)
    ensures !DivisionSafe(b, cats, monthlyBudget)
  {
    DivisionSafeMeaning(b, cats, monthlyBudget);
  }

  /** A worked example: a 3000 budget gives Food & Dining (15%) an allocation of 450, so a
      600 grocery bill is 150 over, a third above the allocation. */
  lemma FoodOverspendScenario()
    ensures Overspending([User("u1", "Ana", "ana@example.com", 3000.0, DateTime(2024, 1, 1))],
                         [Expense("e1", "u1", 600.0, "groceries", "c1", DateTime(2024, 3, 5), 3, 2024)],
                         [Category("c1", "Food & Dining", "#3B82F6", "", 15.0)],
                         "u1", 3, 2024)
         == Ok([OverspendRecord("Food & Dining", 600.0, 450.0, 150.0, 100.0 / 3.0)])
  {
    var u := User("u1", "Ana", "ana@example.com", 3000.0, DateTime(2024, 1, 1));
    var e := Expense("e1", "u1", 600.0, "groceries", "c1", DateTime(2024, 3, 5), 3, 2024);
    var c := Category("c1", "Food & Dining", "#3B82F6", "", 15.0);
    var b := [Entry("Food & Dining", 600.0)];
    var rec := OverspendRecord("Food & Dining", 600.0, 450.0, 150.0, 100.0 / 3.0);
    ScenarioBreakdown(e, c);
    SoleUser(u);
    ScenarioEmitted(c);
    SortSingleton(rec);
  }

  lemma SoleUser(u: User)
    ensures UserById([u], u.id) == Some(u)
  {
  }

  lemma SortSingleton(r: OverspendRecord)
    ensures SortByOverspent([r]) == [r]
  {
    assert [r][..0] == [];
  }

  lemma ScenarioBreakdown(e: Expense, c: Category)
    requires e == Expense("e1", "u1", 600.0, "groceries", "c1", DateTime(2024, 3, 5), 3, 2024)
    requires c == Category("c1", "Food & Dining", "#3B82F6", "", 15.0)
    ensures Categorize(MonthlyExpenses([e], "u1", 3, 2024), [c]) == [Entry("Food & Dining", 600.0)]
  {
    assert [e][..0] == [];
    assert MonthlyExpenses([e], "u1", 3, 2024) == [e] by {
      assert Filter([e], ExpenseIn("u1", 3, 2024)) == [e];
    }
    assert CategoryById([c], "c1") == Some(c);
    assert Categorize([e], [c]) == Accumulate([], "Food & Dining", 600.0);
  }

  lemma ScenarioEmitted(c: Category)
    requires c == Category("c1", "Food & Dining", "#3B82F6", "", 15.0)
    ensures DivisionSafe([Entry("Food & Dining", 600.0)], [c], 3000.0)
    ensures Emitted([Entry("Food & Dining", 600.0)], [c], 3000.0)
         == [OverspendRecord("Food & Dining", 600.0, 450.0, 150.0, 100.0 / 3.0)]
  {
    var b := [Entry("Food & Dining", 600.0)];
    assert CategoryByName([c], "Food & Dining") == Some(c);
    assert Allocation([c], 3000.0, "Food & Dining") == Some(450.0);
    assert b[..0] == [];
    assert DivisionSafe(b, [c], 3000.0);
    assert Record("Food & Dining", 600.0, 450.0) == OverspendRecord("Food & Dining", 600.0, 450.0, 150.0, 100.0 / 3.0);
    assert b[..0] == [];
  }
}
