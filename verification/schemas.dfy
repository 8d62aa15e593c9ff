/** The request and response records of the budget endpoint
    (backend/app/schemas.py) and of the financial-report endpoint (whose
    records are known only from how backend/app/main.py uses them). */
module Schemas {
  import opened Wrappers

  /** An amount declared with `ge=0.0`. */
  type NonNeg = x: real | x >= 0.0

  /** One budget line: a named category with its planned and spent amounts. */
  datatype Category = Category(name: string, planned: NonNeg, spent: NonNeg)

  /** The body of a budget calculation request. */
  datatype BudgetRequest = BudgetRequest(income: NonNeg, categories: seq<Category>)

  /** One line of a budget response. */
  datatype CategoryResponse = CategoryResponse(
    name: string, planned: real, spent: real, remaining: real, pct_spent: real)

  /** The budget response: totals and one line per category. */
  datatype BudgetResponse = BudgetResponse(
    income: real, total_planned: real, total_spent: real, remaining: real,
    categories: seq<CategoryResponse>)

  /** One expense of a financial-report request. */
  datatype Expense = Expense(name: string, amount: real)

  /** The body of a financial-report request; every income field is optional
      and none is constrained to be non-negative. */
  datatype FinancialRequest = FinancialRequest(
    salary_monthly: Option<real>, hourly_rate: Option<real>,
    hours_per_week: Option<real>, other_income_monthly: Option<real>,
    expenses: seq<Expense>)

  /** One expense line of a financial report. */
  datatype ExpenseReport = ExpenseReport(name: string, amount: real)

  /** The financial report returned to the client. */
  datatype FinancialReport = FinancialReport(
    gross_monthly: real, total_expenses: real, net_monthly: real,
    savings_rate_pct: real, expenses: seq<ExpenseReport>)

  /** A category as it arrives in JSON, before validation: any field may be missing. */
  datatype CategoryInput = CategoryInput(name: Option<string>, planned: Option<real>, spent: Option<real>)

  /** A budget request as it arrives in JSON, before validation. */
  datatype BudgetInput = BudgetInput(income: Option<real>, categories: Option<seq<CategoryInput>>)

  /** A field declared `Field(0.0, ge=0.0)` accepts an absent value or a
      non-negative one. */
  predicate Admissible(o: Option<real>)
  {
    o.None? || o.value >= 0.0
  }

  /** The value such a field takes: the default 0 when absent. */
  function AmountOrDefault(o: Option<real>): NonNeg
    requires Admissible(o)
  {
    if o.None? then 0.0 else o.value
  }

  /** Validation of one category: the name is required, the amounts default
      to 0 and must not be negative. */
  function ParseCategory(c: CategoryInput): (r: Option<Category>)
    ensures r.Some? <==> c.name.Some? && Admissible(c.planned) && Admissible(c.spent)
    ensures r.Some? ==> r.value.name == c.name.value
    ensures r.Some? && c.planned.None? ==> r.value.planned == 0.0
    ensures r.Some? && c.planned.Some? ==> r.value.planned == c.planned.value
    ensures r.Some? && c.spent.None? ==> r.value.spent == 0.0
    ensures r.Some? && c.spent.Some? ==> r.value.spent == c.spent.value
  {
    if c.name.Some? && Admissible(c.planned) && Admissible(c.spent) then
      Some(Category(c.name.value, AmountOrDefault(c.planned), AmountOrDefault(c.spent)))
    else
      None
  }

  /** Validation of a list of categories: every element must validate, and
      the validated list keeps their order. */
  function ParseCategories(cs: seq<CategoryInput>): (r: Option<seq<Category>>)
    ensures r.Some? <==> forall i :: 0 <= i < |cs| ==> ParseCategory(cs[i]).Some?
    ensures r.Some? ==> |r.value| == |cs|
    ensures r.Some? ==> forall i :: 0 <= i < |cs| ==> ParseCategory(cs[i]) == Some(r.value[i])
    decreases |cs|
  {
    if |cs| == 0 then Some([])
    else
      match ParseCategories(cs[..|cs| - 1])
      case None => None
      case Some(init) =>
        match ParseCategory(cs[|cs| - 1])
        case None => None
        case Some(last) => Some(init + [last])
  }

  /** Validation of a budget request: income defaults to 0 and must not be
      negative, the category list defaults to empty. */
  function ParseBudgetRequest(b: BudgetInput): (r: Option<BudgetRequest>)
    ensures r.Some? <==>
      Admissible(b.income) && (b.categories.Some? ==> ParseCategories(b.categories.value).Some?)
    ensures r.Some? && b.income.None? ==> r.value.income == 0.0
    ensures r.Some? && b.income.Some? ==> r.value.income == b.income.value
    ensures r.Some? && b.categories.None? ==> r.value.categories == []
    ensures r.Some? && b.categories.Some? ==>
      && |r.value.categories| == |b.categories.value|
      && forall i :: 0 <= i < |b.categories.value| ==>
           ParseCategory(b.categories.value[i]) == Some(r.value.categories[i])
  {
    if !Admissible(b.income) then None
    else if b.categories.None? then Some(BudgetRequest(AmountOrDefault(b.income), []))
    else
      match ParseCategories(b.categories.value)
      case None => None
      case Some(cs) => Some(BudgetRequest(AmountOrDefault(b.income), cs))
  }
}
