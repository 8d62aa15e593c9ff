/** The financial report (`compute_gross_monthly`,
    `calculate_financial_report` and the income guard of the
    `/financial-report` endpoint in backend/app/main.py). */
module Financial {
  import opened Wrappers
  import opened Money
  import opened Schemas

  /** Hours per week assumed when none (or a non-positive number) is given. */
  const DefaultHoursPerWeek: real := 40.0

  /** An hourly wage becomes a monthly one at 52 weeks per 12 months. */
  const WeeksPerYear: real := 52.0
  const MonthsPerYear: real := 12.0

  /** Python's `x and x > 0` on an optional amount: absent and zero are
      falsy, so the test holds exactly for a present, positive amount. */
  predicate IsPositive(o: Option<real>): (b: bool)
    ensures b <==> o.Some? && o.value > 0.0
  {
    o.Some? && o.value != 0.0 && o.value > 0.0
  }

  /** Python's `x or 0.0`: absent counts as zero, and a present amount
      (zero included) is taken as it is. */
  function OrZero(o: Option<real>): (r: real)
    ensures o.None? ==> r == 0.0
    ensures o.Some? ==> r == o.value
  {
    if o.Some? && o.value != 0.0 then o.value else 0.0
  }

  /** The hours worked per week: the given number when positive, else 40. */
  function WeeklyHours(h: Option<real>): (r: real)
    ensures r > 0.0
    ensures h.Some? && h.value > 0.0 ==> r == h.value
    ensures h.None? || h.value <= 0.0 ==> r == DefaultHoursPerWeek
  {
    if IsPositive(h) then h.value else DefaultHoursPerWeek
  }

  /** The gross monthly income before rounding: a positive salary wins, else
      a positive hourly rate converted to a month, else nothing; other
      monthly income is added in every case. */
  function GrossExact(req: FinancialRequest): (g: real)
    ensures IsPositive(req.salary_monthly) ==>
      g == req.salary_monthly.value + OrZero(req.other_income_monthly)
    ensures !IsPositive(req.salary_monthly) && IsPositive(req.hourly_rate) ==>
      g * MonthsPerYear
        == req.hourly_rate.value * WeeklyHours(req.hours_per_week) * WeeksPerYear
           + OrZero(req.other_income_monthly) * MonthsPerYear
    ensures !IsPositive(req.salary_monthly) && !IsPositive(req.hourly_rate) ==>
      g == OrZero(req.other_income_monthly)
  {
    var base :=
      if IsPositive(req.salary_monthly) then req.salary_monthly.value
      else if IsPositive(req.hourly_rate) then
        req.hourly_rate.value * WeeklyHours(req.hours_per_week) * WeeksPerYear / MonthsPerYear
      else 0.0;
    base + OrZero(req.other_income_monthly)
  }

  /** `compute_gross_monthly`: the gross monthly income rounded to cents. */
  function ComputeGrossMonthly(req: FinancialRequest): (g: real)
    ensures IsCents(g)
    ensures -0.005 <= g - GrossExact(req) <= 0.005
  {
    Round2(GrossExact(req))
  }

  /** A positive salary is preferred: the hourly rate and hours are then ignored. */
  lemma SalaryPreferred(req: FinancialRequest, rate: Option<real>, hours: Option<real>)
    requires IsPositive(req.salary_monthly)
    ensures ComputeGrossMonthly(req.(hourly_rate := rate, hours_per_week := hours))
         == ComputeGrossMonthly(req)
  {
  }

  /** Absent, zero and negative hours all mean a 40-hour week. */
  lemma HoursDefaultToForty(req: FinancialRequest)
    requires req.hours_per_week.None? || req.hours_per_week.value <= 0.0
    ensures GrossExact(req) == GrossExact(req.(hours_per_week := Some(DefaultHoursPerWeek)))
  {
  }

  /** The expense amounts, in order. */
  function Amounts(es: seq<Expense>): seq<real>
  {
    seq(|es|, i requires 0 <= i < |es| => es[i].amount)
  }

  /** The sum of the expense amounts. Amounts carry no `ge=0` constraint;
      when none is negative, the total is non-negative and is zero exactly
      when every amount is zero. */
  function TotalExpenses(es: seq<Expense>): (r: real)
    ensures es == [] ==> r == 0.0
    ensures (forall i :: 0 <= i < |es| ==> es[i].amount >= 0.0) ==> r >= 0.0
    ensures (forall i :: 0 <= i < |es| ==> es[i].amount >= 0.0) ==>
      (r == 0.0 <==> forall i :: 0 <= i < |es| ==> es[i].amount == 0.0)
  {
    if forall i :: 0 <= i < |es| ==> es[i].amount >= 0.0 then
      SumZeroIff(Amounts(es));
      assert forall i :: 0 <= i < |es| ==> Amounts(es)[i] == es[i].amount;
      Sum(Amounts(es))
    else
      Sum(Amounts(es))
  }

  /** The total of two concatenated expense lists is the sum of their totals;
      one expense totals its own amount. */
  lemma TotalExpensesAppend(a: seq<Expense>, b: seq<Expense>)
    ensures TotalExpenses(a + b) == TotalExpenses(a) + TotalExpenses(b)
    ensures |b| == 1 ==> TotalExpenses(b) == b[0].amount
  {
    assert Amounts(a + b) == Amounts(a) + Amounts(b);
    SumAppend(Amounts(a), Amounts(b));
    if |b| == 1 {
      assert Amounts(b)[..0] == [];
    }
  }

  /** The share of gross income left after expenses, in percent; 0 when
      there is no positive gross income. */
  function SavingsRate(net: real, gross: real): (r: real)
    ensures gross > 0.0 ==> r * gross == net * 100.0
    ensures gross <= 0.0 ==> r == 0.0
  {
    // `gross and gross > 0`: a zero gross is falsy in Python
    if gross != 0.0 && gross > 0.0 then net / gross * 100.0 else 0.0
  }

  /** With a positive gross, savings rate and expense share add up to 100 percent. */
  lemma SavingsRateComplement(gross: real, expenses: real)
    requires gross > 0.0
    ensures SavingsRate(gross - expenses, gross) + expenses / gross * 100.0 == 100.0
  {
  }

  /** The report before its final rounding. The gross used for the net
      amount and the savings rate is already rounded to cents. */
  function ExactReport(req: FinancialRequest): (r: FinancialReport)
    ensures r.gross_monthly == ComputeGrossMonthly(req)
    ensures r.total_expenses == TotalExpenses(req.expenses)
    ensures r.net_monthly + r.total_expenses == r.gross_monthly
    ensures r.savings_rate_pct == SavingsRate(r.net_monthly, r.gross_monthly)
    ensures |r.expenses| == |req.expenses|
    ensures forall i :: 0 <= i < |req.expenses| ==>
      r.expenses[i] == ExpenseReport(req.expenses[i].name, req.expenses[i].amount)
  {
    var gross := ComputeGrossMonthly(req);
    var total := TotalExpenses(req.expenses);
    var net := gross - total;
    FinancialReport(
      gross, total, net, SavingsRate(net, gross),
      seq(|req.expenses|, i requires 0 <= i < |req.expenses| =>
        ExpenseReport(req.expenses[i].name, req.expenses[i].amount)))
  }

  /** `calculate_financial_report`: the report with every amount rounded to cents. */
  function CalculateFinancialReport(req: FinancialRequest): (r: FinancialReport)
    ensures r.gross_monthly == ComputeGrossMonthly(req)
    ensures r.total_expenses == Round2(TotalExpenses(req.expenses))
    ensures r.net_monthly == Round2(ComputeGrossMonthly(req) - TotalExpenses(req.expenses))
    ensures r.savings_rate_pct
         == Round2(SavingsRate(ComputeGrossMonthly(req) - TotalExpenses(req.expenses), ComputeGrossMonthly(req)))
    ensures |r.expenses| == |req.expenses|
    ensures forall i :: 0 <= i < |req.expenses| ==>
      r.expenses[i].name == req.expenses[i].name && r.expenses[i].amount == Round2(req.expenses[i].amount)
  {
    var e := ExactReport(req);
    Round2Idempotent(GrossExact(req));
    FinancialReport(
      Round2(e.gross_monthly), Round2(e.total_expenses), Round2(e.net_monthly), Round2(e.savings_rate_pct),
      seq(|e.expenses|, i requires 0 <= i < |e.expenses| =>
        ExpenseReport(e.expenses[i].name, Round2(e.expenses[i].amount))))
  }

  /** An HTTP error response. */
  datatype HttpError = HttpError(status: int, detail: string)

  /** The error returned when a request carries no income source. */
  const MissingIncome: HttpError := HttpError(400, "Provide salary_monthly or hourly_rate")

  /** The request has an income source the endpoint accepts: a present,
      positive salary or a present, positive hourly rate. */
  predicate HasIncomeSource(req: FinancialRequest): (b: bool)
    ensures b <==>
      (req.salary_monthly.Some? && req.salary_monthly.value > 0.0)
      || (req.hourly_rate.Some? && req.hourly_rate.value > 0.0)
  {
    IsPositive(req.salary_monthly) || IsPositive(req.hourly_rate)
  }

  /** The `/financial-report` endpoint: a request with neither a positive
      salary nor a positive hourly rate is refused with status 400 before any
      report is computed; any other request gets its report. */
  function FinancialReportEndpoint(body: FinancialRequest): (r: Result<FinancialReport, HttpError>)
    ensures r.Failure? <==>
      !(body.salary_monthly.Some? && body.salary_monthly.value > 0.0)
      && !(body.hourly_rate.Some? && body.hourly_rate.value > 0.0)
    ensures r.Failure? ==> r.error.status == 400
    ensures r.Success? ==> r.value == CalculateFinancialReport(body)
  {
    if !HasIncomeSource(body) then Failure(MissingIncome)
    else Success(CalculateFinancialReport(body))
  }

  /** Both income sources at once are not refused: the salary is used. */
  lemma BothSourcesUseSalary(body: FinancialRequest)
    requires IsPositive(body.salary_monthly) && IsPositive(body.hourly_rate)
    ensures FinancialReportEndpoint(body).Success?
    ensures FinancialReportEndpoint(body).value.gross_monthly
         == Round2(body.salary_monthly.value + OrZero(body.other_income_monthly))
  {
  }

  /** An accepted request without negative other income has a positive gross
      income before rounding. */
  lemma AcceptedGrossPositive(body: FinancialRequest)
    requires HasIncomeSource(body)
    requires OrZero(body.other_income_monthly) >= 0.0
    ensures GrossExact(body) > 0.0
  {
  }

  /** The salary example exercised by the backend's tests: salary 3000 with
      expenses of 1000 and 300. */
  lemma SalaryReportExample()
    ensures var r := CalculateFinancialReport(FinancialRequest(
              Some(3000.0), None, None, None, [Expense("Rent", 1000.0), Expense("Food", 300.0)]));
      && r.gross_monthly == 3000.0
      && r.total_expenses == 1300.0
      && r.net_monthly == 1700.0
  {
    var es := [Expense("Rent", 1000.0), Expense("Food", 300.0)];
    var req := FinancialRequest(Some(3000.0), None, None, None, es);
    assert es == [Expense("Rent", 1000.0)] + [Expense("Food", 300.0)];
    TotalExpensesAppend([], [Expense("Rent", 1000.0)]);
    TotalExpensesAppend([Expense("Rent", 1000.0)], [Expense("Food", 300.0)]);
    assert TotalExpenses(es) == 1300.0;
    assert GrossExact(req) == 3000.0;
    Round2OfCents(3000.0);
    Round2OfCents(1300.0);
    Round2OfCents(1700.0);
  }

  /** The hourly example exercised by the backend's tests: 20 per hour for
      40 hours a week gives 41600 / 12 a month, within a cent of 3466.67. */
  lemma HourlyReportExample()
    ensures var r := CalculateFinancialReport(FinancialRequest(
              None, Some(20.0), Some(40.0), None, [Expense("Bill", 200.0)]));
      && -0.01 < r.gross_monthly - 3466.67 < 0.01
      && r.total_expenses == 200.0
  {
    var es := [Expense("Bill", 200.0)];
    var req := FinancialRequest(None, Some(20.0), Some(40.0), None, es);
    TotalExpensesAppend([], es);
    assert TotalExpenses(es) == 200.0;
    assert GrossExact(req) * 12.0 == 41600.0;
    Round2OfCents(200.0);
  }
}
