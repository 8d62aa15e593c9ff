/** The budget calculation (`calculate_budget` in backend/app/main.py):
    totals over the categories, the money left from the income, and per
    category the amount left and the percentage spent.

    `ExactBudget` states every field on exact reals; `CalculateBudget`
    rounds each field to cents on its own, as the source does. */
module Budget {
  import opened Wrappers
  import opened Money
  import opened Schemas

  /** The planned amounts, in category order. */
  function Planned(cs: seq<Category>): seq<real>
  {
    seq(|cs|, i requires 0 <= i < |cs| => cs[i].planned as real)
  }

  /** The spent amounts, in category order. */
  function Spent(cs: seq<Category>): seq<real>
  {
    seq(|cs|, i requires 0 <= i < |cs| => cs[i].spent as real)
  }

  /** The planned total; since every planned amount is `ge=0`, it is never
      negative and is zero exactly when no category plans anything. */
  function TotalPlanned(cs: seq<Category>): (r: real)
    ensures r >= 0.0
    ensures r == 0.0 <==> forall i :: 0 <= i < |cs| ==> cs[i].planned == 0.0
  {
    SumZeroIff(Planned(cs));
    assert forall i :: 0 <= i < |cs| ==> Planned(cs)[i] == cs[i].planned;
    Sum(Planned(cs))
  }

  /** The spent total; since every spent amount is `ge=0`, it is never
      negative and is zero exactly when no category has spent anything. */
  function TotalSpent(cs: seq<Category>): (r: real)
    ensures r >= 0.0
    ensures r == 0.0 <==> forall i :: 0 <= i < |cs| ==> cs[i].spent == 0.0
  {
    SumZeroIff(Spent(cs));
    assert forall i :: 0 <= i < |cs| ==> Spent(cs)[i] == cs[i].spent;
    Sum(Spent(cs))
  }

  /** Totals over a concatenation of category lists are the sums of the
      totals of the parts; with `TotalsOfOne` this pins the totals down as
      the sums of the planned and spent amounts. */
  lemma TotalsAppend(a: seq<Category>, b: seq<Category>)
    ensures TotalPlanned(a + b) == TotalPlanned(a) + TotalPlanned(b)
    ensures TotalSpent(a + b) == TotalSpent(a) + TotalSpent(b)
  {
    assert Planned(a + b) == Planned(a) + Planned(b);
    assert Spent(a + b) == Spent(a) + Spent(b);
    SumAppend(Planned(a), Planned(b));
    SumAppend(Spent(a), Spent(b));
  }

  /** The totals of no categories are zero, and of one category are its own amounts. */
  lemma TotalsOfOne(c: Category)
    ensures TotalPlanned([]) == 0.0 && TotalSpent([]) == 0.0
    ensures TotalPlanned([c]) == c.planned && TotalSpent([c]) == c.spent
  {
  }

  /** The percentage of the plan already spent; 0 when nothing is planned,
      so there is never a division by zero. */
  function PctSpent(c: Category): (p: real)
    ensures c.planned > 0.0 ==> p * c.planned == c.spent * 100.0
    ensures c.planned == 0.0 ==> p == 0.0
    ensures p >= 0.0
    ensures p == 0.0 <==> c.planned == 0.0 || c.spent == 0.0
  {
    // `c.planned and c.planned > 0`: a zero amount is falsy in Python
    if c.planned != 0.0 && c.planned > 0.0 then c.spent / c.planned * 100.0 else 0.0
  }

  /** With something planned, the percentage passes 100 exactly when the
      category is overspent, and is exactly 100 when spent equals planned. */
  lemma PctSpentOverspent(c: Category)
    requires c.planned > 0.0
    ensures PctSpent(c) > 100.0 <==> c.spent > c.planned
    ensures PctSpent(c) == 100.0 <==> c.spent == c.planned
  {
    ScaledCompare(PctSpent(c), c.planned, c.spent);
  }

  /** For `p * a == s * 100` with `a > 0`: `p` compares with 100 as `s` compares with `a`. */
  lemma ScaledCompare(p: real, a: real, s: real)
    requires a > 0.0
    requires p * a == s * 100.0
    ensures p > 100.0 <==> s > a
    ensures p == 100.0 <==> s == a
  {
  }

  /** One response line on exact reals. */
  function ExactLine(c: Category): (r: CategoryResponse)
    ensures r.name == c.name && r.planned == c.planned && r.spent == c.spent
    ensures r.remaining + c.spent == c.planned
    ensures r.remaining < 0.0 <==> c.spent > c.planned
    ensures r.pct_spent == PctSpent(c) && r.pct_spent >= 0.0
  {
    CategoryResponse(c.name, c.planned, c.spent, c.planned - c.spent, PctSpent(c))
  }

  /** The budget response on exact reals. */
  function ExactBudget(p: BudgetRequest): (r: BudgetResponse)
    ensures r.income == p.income
    ensures r.remaining + r.total_spent == p.income
    ensures r.total_planned == TotalPlanned(p.categories) && r.total_spent == TotalSpent(p.categories)
    ensures r.total_planned >= 0.0 && r.total_spent >= 0.0
    ensures |r.categories| == |p.categories|
    ensures forall i :: 0 <= i < |p.categories| ==> r.categories[i] == ExactLine(p.categories[i])
  {
    var spent := TotalSpent(p.categories);
    BudgetResponse(
      p.income, TotalPlanned(p.categories), spent, p.income - spent,
      seq(|p.categories|, i requires 0 <= i < |p.categories| => ExactLine(p.categories[i])))
  }

  /** One response line: the category's amounts, its remaining amount and
      its percentage spent, each rounded to cents on its own. */
  function RoundedLine(c: Category): (l: CategoryResponse)
    ensures l.name == c.name
    ensures l.planned == Round2(c.planned) && l.spent == Round2(c.spent)
    ensures l.remaining == Round2(c.planned - c.spent)
    ensures l.pct_spent == Round2(PctSpent(c))
    ensures l.planned >= 0.0 && l.spent >= 0.0 && l.pct_spent >= 0.0
  {
    CategoryResponse(
      c.name, Round2(c.planned), Round2(c.spent), Round2(c.planned - c.spent), Round2(PctSpent(c)))
  }

  /** `calculate_budget`: every amount of the response rounded to cents. */
  function CalculateBudget(p: BudgetRequest): (r: BudgetResponse)
    ensures r.income == Round2(p.income)
    ensures r.total_planned == Round2(TotalPlanned(p.categories))
    ensures r.total_spent == Round2(TotalSpent(p.categories))
    ensures r.remaining == Round2(p.income - TotalSpent(p.categories))
    ensures r.total_planned >= 0.0 && r.total_spent >= 0.0
    ensures |r.categories| == |p.categories|
    ensures forall i :: 0 <= i < |p.categories| ==> r.categories[i] == RoundedLine(p.categories[i])
  {
    var cs := p.categories;
    var spent := TotalSpent(cs);
    BudgetResponse(
      Round2(p.income), Round2(TotalPlanned(cs)), Round2(spent), Round2(p.income - spent),
      seq(|cs|, i requires 0 <= i < |cs| => RoundedLine(cs[i])))
  }

  /** The overall remaining amount and the total spent depend only on the
      income and the spent amounts: planned amounts never affect them. */
  lemma RemainingIgnoresPlanned(p: BudgetRequest, q: BudgetRequest)
    requires p.income == q.income
    requires Spent(p.categories) == Spent(q.categories)
    ensures CalculateBudget(p).remaining == CalculateBudget(q).remaining
    ensures CalculateBudget(p).total_spent == CalculateBudget(q).total_spent
  {
  }

  /** A rounded line shows a negative remaining amount only for an overspent
      category; a category overspent by less than half a cent shows 0. */
  lemma RoundedRemainingNegativeOnlyIfOverspent(p: BudgetRequest, i: int)
    requires 0 <= i < |p.categories|
    requires CalculateBudget(p).categories[i].remaining < 0.0
    ensures p.categories[i].spent > p.categories[i].planned
  {
    Round2Negative(p.categories[i].planned - p.categories[i].spent);
  }

  /** A request with every field left at its default (no income, no
      categories) yields zero totals and zero remaining. */
  lemma DefaultRequestIsZero()
    ensures ParseBudgetRequest(BudgetInput(None, None)) == Some(BudgetRequest(0.0, []))
    ensures CalculateBudget(BudgetRequest(0.0, [])) == BudgetResponse(0.0, 0.0, 0.0, 0.0, [])
  {
  }

  /** The budget example exercised by the backend's tests: income 3000,
      Groceries 400/120 and Rent 1200/1200. */
  lemma CalculateBasicExample()
    ensures var r := CalculateBudget(BudgetRequest(3000.0, [Category("Groceries", 400.0, 120.0), Category("Rent", 1200.0, 1200.0)]));
      && r.income == 3000.0
      && r.total_planned == 1600.0
      && r.total_spent == 1320.0
      && r.categories[0].name == "Groceries"
  {
    var g := Category("Groceries", 400.0, 120.0);
    var rent := Category("Rent", 1200.0, 1200.0);
    assert [g, rent] == [g] + [rent];
    TotalsAppend([g], [rent]);
    TotalsOfOne(g);
    TotalsOfOne(rent);
    Round2OfCents(3000.0);
    Round2OfCents(1600.0);
    Round2OfCents(1320.0);
  }
}
