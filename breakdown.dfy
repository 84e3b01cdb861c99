/** The category aggregator (`categorize_expenses`): expense amounts summed per category NAME. */
module CategoryBreakdown {
  import opened Wrappers
  import opened Seqs
  import opened Finance

  function IdIs(id: string): Category -> bool
  {
    (c: Category) => c.id == id
  }

  /** The lookup `categories[category_id]` in a dict built from the directory: when two
      categories share an identifier, the later one is the one kept. */
  function CategoryById(cats: seq<Category>, id: string): (r: Option<Category>)
    ensures r.None? <==> forall i :: 0 <= i < |cats| ==> cats[i].id != id
    ensures r.Some? ==> r.value.id == id && exists k :: 0 <= k < |cats| && cats[k] == r.value && LastWithId(cats, k, id)
  {
    match LastIndex(cats, IdIs(id))
    case None => None
    case Some(k) => Some(cats[k])
  }

  /** No category after position `k` has identifier `id`. */
  predicate LastWithId(cats: seq<Category>, k: nat, id: string)
  {
    forall j :: k < j < |cats| ==> cats[j].id != id
  }

  /** The keys of the breakdown dict. */
  function Keys(b: seq<Entry>): set<string>
  {
    if b == [] then {} else {b[0].name} + Keys(b[1..])
  }

  /** Dict keys are unique. */
  predicate DistinctNames(b: seq<Entry>)
  {
    b == [] || (b[0].name !in Keys(b[1..]) && DistinctNames(b[1..]))
  }

  /** The value stored under `name`, or 0.0 (the `defaultdict(float)` default) when absent. */
  function Total(b: seq<Entry>, name: string): real
  {
    if b == [] then 0.0 else if b[0].name == name then b[0].total else Total(b[1..], name)
  }

  function EntryTotal(e: Entry): real { e.total }

  /** `breakdown[name] += amount` on a `defaultdict(float)`: adds to the existing value, or
      inserts `0.0 + amount` at the end when the key is new. */
  function Accumulate(b: seq<Entry>, name: string, amount: real): (r: seq<Entry>)
    ensures Keys(r) == Keys(b) + {name}
    ensures forall n :: Total(r, n) == Total(b, n) + (if n == name then amount else 0.0)
    ensures DistinctNames(b) ==> DistinctNames(r)
    ensures Sum(r, EntryTotal) == Sum(b, EntryTotal) + amount
  {
    if b == [] then [Entry(name, 0.0 + amount)]
    else if b[0].name == name then
      assert ([Entry(name, b[0].total + amount)] + b[1..])[1..] == b[1..];
      [Entry(name, b[0].total + amount)] + b[1..]
    else
      var rest := Accumulate(b[1..], name, amount);
      assert ([b[0]] + rest)[1..] == rest;
      [b[0]] + rest
  }

  /** Whether an expense resolves to a category of the directory named `name`. */
  predicate SpentOn(e: Expense, cats: seq<Category>, name: string)
  {
    match CategoryById(cats, e.categoryId)
    case None => false
    case Some(c) => c.name == name
  }

  function SpentOnFn(cats: seq<Category>, name: string): Expense -> bool
  {
    (e: Expense) => SpentOn(e, cats, name)
  }

  function ResolvesFn(cats: seq<Category>): Expense -> bool
  {
    (e: Expense) => CategoryById(cats, e.categoryId).Some?
  }

  /** The breakdown `categorize_expenses` returns for `expenses`, built in iteration order. */
  function Categorize(expenses: seq<Expense>, cats: seq<Category>): (r: seq<Entry>)
    ensures DistinctNames(r)
  {
    if expenses == [] then []
    else
      var b := Categorize(expenses[..|expenses| - 1], cats);
      var e := expenses[|expenses| - 1];
      match CategoryById(cats, e.categoryId)
      case None => b
      case Some(c) => Accumulate(b, c.name, e.amount)
  }

  /** One step of the fold: the last expense adds its resolved name, if any, to the keys. */
  lemma CategorizeKeysStep(expenses: seq<Expense>, cats: seq<Category>, name: string)
    requires expenses != []
    ensures name in Keys(Categorize(expenses, cats))
        <==> name in Keys(Categorize(expenses[..|expenses| - 1], cats)) || SpentOn(expenses[|expenses| - 1], cats, name)
  {
  }

  /** The keys are exactly the names of the categories that at least one expense resolves to;
      an expense whose category id is not in the directory contributes no key. */
  lemma {:induction false} CategorizeKeys(expenses: seq<Expense>, cats: seq<Category>, name: string)
    ensures name in Keys(Categorize(expenses, cats))
        <==> exists i :: 0 <= i < |expenses| && SpentOn(expenses[i], cats, name)
  {
    if expenses != [] {
      CategorizeKeys(expenses[..|expenses| - 1], cats, name);
      CategorizeKeysStep(expenses, cats, name);
      ExistsLast(expenses, expenses[..|expenses| - 1], SpentOnFn(cats, name));
    }
  }

  /** One step of the fold: the last expense adds its amount to its resolved name's total. */
  lemma CategorizeTotalsStep(expenses: seq<Expense>, cats: seq<Category>, name: string)
    requires expenses != []
    ensures Total(Categorize(expenses, cats), name)
         == Total(Categorize(expenses[..|expenses| - 1], cats), name)
          + (if SpentOn(expenses[|expenses| - 1], cats, name) then expenses[|expenses| - 1].amount else 0.0)
  {
  }

  /** Each value is the sum of the amounts of the expenses resolving to a category of that
      name: two categories sharing a name have their spend added, not overwritten. */
  lemma {:induction false} CategorizeTotals(expenses: seq<Expense>, cats: seq<Category>, name: string)
    ensures Total(Categorize(expenses, cats), name)
         == Sum(Filter(expenses, SpentOnFn(cats, name)), ExpenseAmount)
  {
    if expenses != [] {
      CategorizeTotals(expenses[..|expenses| - 1], cats, name);
      CategorizeTotalsStep(expenses, cats, name);
      SumFilterLast(expenses, SpentOnFn(cats, name), ExpenseAmount);
    }
  }

  /** One step of the fold: a resolved expense adds its amount to the sum of the totals. */
  lemma CategorizeSumStep(expenses: seq<Expense>, cats: seq<Category>)
    requires expenses != []
    ensures Sum(Categorize(expenses, cats), EntryTotal)
         == Sum(Categorize(expenses[..|expenses| - 1], cats), EntryTotal)
          + (if CategoryById(cats, expenses[|expenses| - 1].categoryId).Some? then expenses[|expenses| - 1].amount else 0.0)
  {
  }

  /** The breakdown's values add up to the amounts of the resolved expenses. */
  lemma {:induction false} CategorizeSum(expenses: seq<Expense>, cats: seq<Category>)
    ensures Sum(Categorize(expenses, cats), EntryTotal) == Sum(Filter(expenses, ResolvesFn(cats)), ExpenseAmount)
  {
    if expenses != [] {
      CategorizeSum(expenses[..|expenses| - 1], cats);
      CategorizeSumStep(expenses, cats);
      SumFilterLast(expenses, ResolvesFn(cats), ExpenseAmount);
    }
  }

  /** When every expense's category exists, the breakdown accounts for all of the spend. */
  lemma BreakdownAccountsForAll(expenses: seq<Expense>, cats: seq<Category>)
    requires forall i :: 0 <= i < |expenses| ==> CategoryById(cats, expenses[i].categoryId).Some?
    ensures Sum(Categorize(expenses, cats), EntryTotal) == Sum(expenses, ExpenseAmount)
  {
    CategorizeSum(expenses, cats);
    FilterAll(expenses, ResolvesFn(cats));
  }

  /** `categorize_expenses`, as the loop the source runs. */
  method CategorizeExpenses(expenses: seq<Expense>, cats: seq<Category>) returns (breakdown: seq<Entry>)
    ensures breakdown == Categorize(expenses, cats)
  {
    breakdown := [];
    for i := 0 to |expenses|
      invariant breakdown == Categorize(expenses[..i], cats)
    {
      var e := expenses[i];
      assert expenses[..i + 1][..i] == expenses[..i];
      match CategoryById(cats, e.categoryId)
      case Some(c) =>
        breakdown := Accumulate(breakdown, c.name, e.amount);
      case None =>
    }
    assert expenses[..|expenses|] == expenses;
  }

  /** A category whose only expense has amount 0 still appears in the breakdown, with total
      0: keys come from resolved expenses, not from positive spend. */
  lemma ZeroSpendCategoryKept(e: Expense, c: Category)
    requires e.amount == 0.0 && e.categoryId == c.id
    ensures Categorize([e], [c]) == [Entry(c.name, 0.0)]
  {
    assert [e][..0] == [];
    assert CategoryById([c], e.categoryId) == Some(c);
  }
}
