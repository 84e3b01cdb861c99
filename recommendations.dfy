/** The recommendation generator (`generate_savings_tips`) and the recommendations route. */
module Recommendations {
  import opened Wrappers
  import opened Finance
  import opened MonthlyData
  import opened Ranking
  import opened OverspendingDetector

  /** The single generic tip for a category without table entries. */
  const GenericTips: seq<string> := ["Review your spending in this category"]

  /** `tips_db`: canned advice for five of the seeded categories. */
  const FoodTips: seq<string> := [
    "Cook more meals at home instead of ordering takeout",
    "Plan weekly meals and create shopping lists",
    "Use grocery store apps for discounts and coupons",
    "Buy generic brands instead of name brands"]

  const TransportationTips: seq<string> := [
    "Use public transportation when possible",
    "Combine errands into single trips",
    "Consider carpooling or ridesharing",
    "Walk or bike for short distances"]

  const EntertainmentTips: seq<string> := [
    "Look for free community events and activities",
    "Use streaming services instead of cable TV",
    "Take advantage of happy hour specials",
    "Host gatherings at home instead of going out"]

  const ShoppingTips: seq<string> := [
    "Wait 24 hours before making non-essential purchases",
    "Compare prices across different stores",
    "Buy items during sales and clearance events",
    "Use cashback apps and reward programs"]

  const BillsTips: seq<string> := [
    "Review and negotiate your monthly subscriptions",
    "Switch to energy-efficient appliances",
    "Use programmable thermostats",
    "Bundle services for better rates"]

  /** `tips_db.get(category, [...])`: the category's entry, or the generic tip. */
  function TipsFor(category: string): seq<string>
  {
    if category == "Food & Dining" then FoodTips
    else if category == "Transportation" then TransportationTips
    else if category == "Entertainment" then EntertainmentTips
    else if category == "Shopping" then ShoppingTips
    else if category == "Bills & Utilities" then BillsTips
    else GenericTips
  }

  /** The categories `tips_db` lists. */
  const TableCategories: set<string> :=
    {"Food & Dining", "Transportation", "Entertainment", "Shopping", "Bills & Utilities"}

  /** The five listed categories get four tips each, no two of them the same list and none the
      generic tip; every other name gets the generic tip. */
  lemma TipsForMeaning(category: string)
    ensures category in TableCategories ==> |TipsFor(category)| == 4 && TipsFor(category) != GenericTips
    ensures category !in TableCategories ==> TipsFor(category) == GenericTips
    ensures forall a, b :: a in TableCategories && b in TableCategories && a != b ==> TipsFor(a) != TipsFor(b)
  {
    forall a, b | a in TableCategories && b in TableCategories && a != b
      ensures TipsFor(a) != TipsFor(b)
    {
      assert TipsFor(a)[0] != TipsFor(b)[0];
    }
  }

  /** Every table entry has tips, so no recommendation is without one. */
  lemma TipsNeverEmpty(category: string)
    ensures |TipsFor(category)| >= 1
  {
  }

  /** The recommendation for one overspend record: its figures copied, its tips looked up. */
  function Recommend(r: OverspendRecord): SavingsRecommendation
  {
    SavingsRecommendation(r.category, r.spent, r.budget, r.overspent, TipsFor(r.category))
  }

  /** The loop of `generate_savings_tips`: one recommendation per record, in input order. */
  method GenerateSavingsTips(data: seq<OverspendRecord>) returns (recs: seq<SavingsRecommendation>)
    ensures |recs| == |data|
    ensures forall i :: 0 <= i < |data| ==>
      && recs[i].category == data[i].category
      && recs[i].currentSpending == data[i].spent
      && recs[i].recommendedBudget == data[i].budget
      && recs[i].potentialSavings == data[i].overspent
      && recs[i].tips == TipsFor(data[i].category)
    ensures recs == RecommendAll(data)
  {
    recs := [];
    for i := 0 to |data|
      invariant |recs| == i
      invariant forall k :: 0 <= k < i ==> recs[k] == Recommend(data[k])
    {
      recs := recs + [Recommend(data[i])];
    }
  }

  /** The recommendations of a whole overspend list, as a value. */
  function RecommendAll(data: seq<OverspendRecord>): seq<SavingsRecommendation>
  {
    seq(|data|, i requires 0 <= i < |data| => Recommend(data[i]))
  }

  /** Input order is kept, so a list sorted by overspend gives recommendations sorted by
      potential savings, largest first. */
  lemma RecommendationsKeepSeverityOrder(data: seq<OverspendRecord>)
    requires SortedByOverspent(data)
    ensures forall i, j :: 0 <= i < j < |data| ==>
      RecommendAll(data)[i].potentialSavings >= RecommendAll(data)[j].potentialSavings
  {
  }

  /** The recommendations of a known period: overspend detection, then tips. */
  function RecommendationsFor(users: seq<User>, expenses: seq<Expense>, cats: seq<Category>, userId: string,
                              month: int, year: int): Result<seq<SavingsRecommendation>, Error>
  {
    match Overspending(users, expenses, cats, userId, month, year)
    case Err(e) => Err(e)
    case Ok(records) => Ok(RecommendAll(records))
  }

  /** `GET /api/recommendations/{user_id}`: the period defaults to the current month of `now`. */
  function SavingsRecommendations(users: seq<User>, expenses: seq<Expense>, cats: seq<Category>, userId: string,
                                  month: Option<int>, year: Option<int>, now: DateTime)
    : Result<seq<SavingsRecommendation>, Error>
  {
    var (m, y) := ResolvePeriod(month, year, now);
    RecommendationsFor(users, expenses, cats, userId, m, y)
  }

  /** The route fails exactly when detection fails; otherwise it recommends for exactly the
      detected records, one each, in their order. */
  lemma RecommendationsForMeaning(users: seq<User>, expenses: seq<Expense>, cats: seq<Category>, userId: string,
                                  month: int, year: int)
    ensures var r := RecommendationsFor(users, expenses, cats, userId, month, year);
      var d := Overspending(users, expenses, cats, userId, month, year);
      && (r.Err? <==> d.Err?)
      && (r.Err? ==> r.error == DivisionByZero)
      && (r.Ok? ==> |r.value| == |d.value|
                    && forall i :: 0 <= i < |d.value| ==> r.value[i] == Recommend(d.value[i]))
  {
  }

  /** The period of a recommendations request is fixed once, as for the analysis: a non-zero
      month and a non-zero year are used whatever the time, and any other request, including
      one naming a month without a year, is answered for the month and year of `now`. */
  lemma RecommendationsPeriod(users: seq<User>, expenses: seq<Expense>, cats: seq<Category>, userId: string,
                              month: Option<int>, year: Option<int>, now: DateTime, later: DateTime)
    ensures PeriodGiven(month, year) ==>
      && SavingsRecommendations(users, expenses, cats, userId, month, year, now)
         == RecommendationsFor(users, expenses, cats, userId, month.value, year.value)
      && SavingsRecommendations(users, expenses, cats, userId, month, year, now)
         == SavingsRecommendations(users, expenses, cats, userId, month, year, later)
    ensures !PeriodGiven(month, year) ==>
      SavingsRecommendations(users, expenses, cats, userId, month, year, now)
      == RecommendationsFor(users, expenses, cats, userId, now.month, now.year)
    ensures SavingsRecommendations(users, expenses, cats, userId, month, None, now)
         == SavingsRecommendations(users, expenses, cats, userId, None, None, now)
  {
  }

  /** What a recommendation list says, given what the detector promises of its input. */
  predicate SavingsConsistent(recs: seq<SavingsRecommendation>)
  {
    && (forall i :: 0 <= i < |recs| ==>
          && recs[i].potentialSavings == recs[i].currentSpending - recs[i].recommendedBudget
          && recs[i].potentialSavings > 0.0
          && |recs[i].tips| >= 1)
    && (forall i, j :: 0 <= i < j < |recs| ==> recs[i].potentialSavings >= recs[j].potentialSavings)
  }

  /** Each recommendation's tips are its category's table entry or the generic tip. */
  lemma RecommendationTips(records: seq<OverspendRecord>, i: nat)
    requires i < |records|
    ensures RecommendAll(records)[i].tips == TipsFor(records[i].category)
    ensures |RecommendAll(records)[i].tips| >= 1
  {
    TipsNeverEmpty(records[i].category);
  }

  lemma RecommendAllConsistent(records: seq<OverspendRecord>)
    requires forall i :: 0 <= i < |records| ==>
      records[i].overspent == records[i].spent - records[i].budget && records[i].overspent > 0.0
    requires SortedByOverspent(records)
    ensures SavingsConsistent(RecommendAll(records))
  {
    var recs := RecommendAll(records);
    forall i | 0 <= i < |recs|
      ensures recs[i].potentialSavings == recs[i].currentSpending - recs[i].recommendedBudget
      ensures recs[i].potentialSavings > 0.0
      ensures |recs[i].tips| >= 1
    {
      assert recs[i] == Recommend(records[i]);
      TipsNeverEmpty(records[i].category);
    }
    forall i, j | 0 <= i < j < |recs|
      ensures recs[i].potentialSavings >= recs[j].potentialSavings
    {
      assert recs[i] == Recommend(records[i]) && recs[j] == Recommend(records[j]);
    }
  }

  /** For each recommendation of the route: the potential saving is exactly the spend above the
      recommended budget and is positive, every one carries a tip, and they come largest saving
      first. */
  lemma RecommendationsMeaning(users: seq<User>, expenses: seq<Expense>, cats: seq<Category>, userId: string,
                               month: Option<int>, year: Option<int>, now: DateTime)
    requires SavingsRecommendations(users, expenses, cats, userId, month, year, now).Ok?
    ensures SavingsConsistent(SavingsRecommendations(users, expenses, cats, userId, month, year, now).value)
  {
    var (m, y) := ResolvePeriod(month, year, now);
    var detected := Overspending(users, expenses, cats, userId, m, y);
    assert detected.Ok?;
    var records := detected.value;
    assert SavingsRecommendations(users, expenses, cats, userId, month, year, now).value == RecommendAll(records) by {
      assert SavingsRecommendations(users, expenses, cats, userId, month, year, now)
          == RecommendationsFor(users, expenses, cats, userId, m, y);
    }
    forall i | 0 <= i < |records|
      ensures records[i].overspent == records[i].spent - records[i].budget && records[i].overspent > 0.0
    {
      OverspendingSound(users, expenses, cats, userId, m, y, i);
    }
    RecommendAllConsistent(records);
  }
}
