# Budget calculator backend — Dafny model

This project models the server side of a personal-finance app: the FastAPI
backend that answers two requests.

- `POST /calculate` takes an income and a list of budget categories. Each
  category has a planned and a spent amount. The answer holds the total
  planned, the total spent, the income left after spending, and for each
  category the amount left and the percentage of the plan spent.
- `POST /financial-report` takes a monthly salary or an hourly wage, plus
  other income and a list of expenses. The answer holds the gross monthly
  income, the total expenses, the net income and the savings rate. A request
  with no positive salary and no positive hourly rate is refused with status 400.

Amounts are exact `real`s. Lists are `seq`s. Python's `round(x, 2)` is
`Money.Round2`: the nearest whole number of cents, ties to even.
`Budget.ExactBudget` and `Financial.ExactReport` state every field of a
response before rounding. The responses themselves
(`Budget.CalculateBudget`, `Financial.CalculateFinancialReport`) round each
field on its own, as the source does. The gross income is already rounded
when the net income and the savings rate are computed from it.

Modules:

- `Wrappers`: `Option` (an absent JSON field) and `Result` (a report or an HTTP error).
- `Money`: `Sum` (Python's `sum`) and `Round2`, with their lemmas.
- `Schemas`: the request and response records. `Category.planned`,
  `Category.spent` and `BudgetRequest.income` have the subset type
  `NonNeg`, which is their `ge=0.0` constraint. `ParseCategory` and
  `ParseBudgetRequest` model the defaults and the `ge=0.0` checks: they take
  a view of the JSON body where every field may be absent.
- `Budget`: `calculate_budget`.
- `Financial`: `compute_gross_monthly`, `calculate_financial_report` and the
  income guard of the `/financial-report` endpoint.

`FinancialRequest`, `FinancialReport` and `ExpenseReport` are imported by
backend/app/main.py:7-9, but backend/app/schemas.py does not define them.
Their fields here come only from how main.py uses them. No non-negativity is
assumed for any of their amounts.

## Model

| member | source | states |
|---|---|---|
| Money.Sum | backend/app/main.py:27-28 | Python's `sum` as a left fold from 0. A sum of non-negative amounts is never negative. |
| Money.SumAppend | backend/app/main.py:27-28 | Summing a concatenation of amount lists gives the sum of the parts' sums. The totals lemmas rest on this. |
| Money.SumZeroIff | backend/app/main.py:27-28 | A sum of non-negative amounts is zero exactly when every amount is zero. |
| Money.Round2 | backend/app/main.py:38-49 | Rounding gives a whole number of cents within half a cent of the input. It keeps a non-negative amount non-negative. |
| Money.Round2Idempotent | backend/app/main.py:95 | Rounding an already rounded amount changes nothing. So the second rounding of the gross income is harmless. |
| Schemas.ParseCategory | backend/app/schemas.py:5-8 | A category is accepted exactly when its name is present and neither amount is negative. A missing amount becomes 0. A present amount and the name are kept unchanged. |
| Schemas.ParseCategories | backend/app/schemas.py:13 | A category list is accepted exactly when every element is accepted. The result keeps the length and order, and each element is that element's validation. |
| Schemas.ParseBudgetRequest | backend/app/schemas.py:11-13 | A request is accepted exactly when the income is absent or non-negative and every category is accepted. A missing income becomes 0. A missing category list becomes empty. |
| Budget.TotalsAppend | backend/app/main.py:27-28 | The planned and spent totals of two concatenated category lists are the sums of the parts' totals. |
| Budget.TotalsOfOne | backend/app/main.py:27-28 | No categories total 0. One category's totals are its own planned and spent amounts. With TotalsAppend, this fixes the totals as the sums over all categories. |
| Budget.TotalPlanned | backend/app/main.py:27 | Because every planned amount is `ge=0`, the planned total is never negative. It is zero exactly when every category plans nothing. |
| Budget.TotalSpent | backend/app/main.py:28 | Because every spent amount is `ge=0`, the spent total is never negative. It is zero exactly when no category has spent anything. |
| Budget.PctSpent | backend/app/main.py:34 | With a positive plan, the percentage times the plan equals spent times 100. With nothing planned it is 0, so nothing is divided by zero. It is never negative. It is 0 exactly when nothing is planned or nothing is spent. |
| Budget.PctSpentOverspent | backend/app/main.py:34 | With a positive plan, the percentage is above 100 exactly when spent exceeds planned. It is exactly 100 when the two are equal. |
| Budget.ExactLine | backend/app/main.py:32-34 | A line keeps the category's name and amounts, and its percentage is the category's `PctSpent`. Remaining plus spent equals planned, with no clamping. Remaining is negative exactly when the category is overspent. |
| Budget.ExactBudget | backend/app/main.py:26-43 | The income is unchanged. The totals are the planned and spent totals of the categories, and remaining plus total spent equals the income. Both totals are non-negative. There is one line per category, in input order. |
| Budget.RoundedLine | backend/app/main.py:33-42 | A response line keeps the category's name. Its planned, spent, remaining (planned minus spent) and percentage spent are each rounded to cents. Amounts and percentage are never negative. |
| Budget.CalculateBudget | backend/app/main.py:26-51 | The response has every field rounded to cents. The totals are the rounded sums. Remaining is income minus total spent, rounded to cents. Both totals are never negative. There is one `RoundedLine` per category, in input order. |
| Budget.RemainingIgnoresPlanned | backend/app/main.py:28-29 | Two requests with the same income and the same spent amounts, in the same order, get the same remaining and the same total spent, whatever their planned amounts. |
| Budget.RoundedRemainingNegativeOnlyIfOverspent | backend/app/main.py:33-40 | A negative remaining in a rounded line comes only from an overspent category. |
| Budget.DefaultRequestIsZero | backend/app/schemas.py:11-13 | An empty JSON object `{}` becomes income 0 with no categories. Its response is all zeros with no lines. |
| Budget.CalculateBasicExample | backend/tests/test_calculate.py:6-21 | Income 3000 with Groceries 400/120 and Rent 1200/1200 gives income 3000, planned 1600 and spent 1320, and a Groceries line. |
| Financial.IsPositive | backend/app/main.py:70-74 | Python's `x and x > 0` on an optional amount holds exactly when the amount is present and positive. Absent and zero are both falsy. |
| Financial.OrZero | backend/app/main.py:80 | Python's `x or 0.0` gives 0 for an absent amount and the amount itself when present, zero included. |
| Financial.WeeklyHours | backend/app/main.py:74 | The hours per week are the given hours when positive. Absent, zero or negative hours give 40. The result is always positive. |
| Financial.GrossExact | backend/app/main.py:68-80 | A positive salary gives salary plus other income. Otherwise a positive hourly rate gives rate × hours × 52 / 12 plus other income. Otherwise the result is just the other income, with absent counting as 0. |
| Financial.ComputeGrossMonthly | backend/app/main.py:81 | The gross is a whole number of cents within half a cent of the exact gross. |
| Financial.SalaryPreferred | backend/app/main.py:69-72 | With a positive salary, changing the hourly rate or the hours does not change the gross. |
| Financial.HoursDefaultToForty | backend/app/main.py:73-74 | Absent or non-positive hours give the same gross as exactly 40 hours. |
| Financial.TotalExpenses | backend/app/main.py:86 | No expenses total 0. The amounts have no `ge=0` constraint. When none is negative, the total is never negative, and it is zero exactly when every amount is zero. |
| Financial.TotalExpensesAppend | backend/app/main.py:86 | The total of two concatenated expense lists is the sum of their totals. One expense totals its own amount. Together these fix the total as the sum of the amounts. |
| Financial.SavingsRate | backend/app/main.py:88 | With a positive gross, the rate times the gross equals net times 100. Otherwise the rate is 0, so nothing is divided by zero. |
| Financial.SavingsRateComplement | backend/app/main.py:86-88 | With a positive gross, the savings rate and the expenses as a percentage of gross add up to 100. |
| Financial.ExactReport | backend/app/main.py:84-92 | The gross is the rounded gross. The total is the sum of the expense amounts. Net plus total expenses equals that rounded gross. The savings rate is computed from net and the rounded gross. Expense lines are copied one per expense, in order. |
| Financial.CalculateFinancialReport | backend/app/main.py:84-100 | The report has every field rounded to cents. Gross is the rounded gross, and total is the rounded sum of amounts. Net and savings rate are rounded and computed from the rounded gross. Each expense line keeps its name and position, with a rounded amount. |
| Financial.HasIncomeSource | backend/app/main.py:108 | The guard holds exactly when a salary is present and positive, or an hourly rate is present and positive. |
| Financial.FinancialReportEndpoint | backend/app/main.py:103-112 | A request fails exactly when it has neither a positive salary nor a positive hourly rate. The failure has status 400. Any other request gets its report. |
| Financial.BothSourcesUseSalary | backend/app/main.py:108-111 | A request with both a positive salary and a positive hourly rate is accepted, not refused. Its gross is the rounded salary plus other income. |
| Financial.AcceptedGrossPositive | backend/app/main.py:108-111 | An accepted request whose other income is not negative has a positive gross before rounding. |
| Financial.SalaryReportExample | backend/tests/test_financial_report.py:8-18 | Salary 3000 with expenses 1000 and 300 gives gross 3000, expenses 1300 and net 1700. |
| Financial.HourlyReportExample | backend/tests/test_financial_report.py:21-32 | 20 per hour at 40 hours a week gives a gross within a cent of 3466.67, with total expenses 200. |

## Left out

- Python floats: amounts are exact reals. Sums, products and quotients have
  no binary rounding error. `NaN` and infinities do not exist in this model.
- Money.Round2: Python's `round(x, 2)` rounds the binary double nearest to
  `x`. The model rounds the exact real, ties to even. The two differ on a
  decimal tie that a double cannot store exactly. The Python documentation's
  own example is `round(2.675, 2)`, which gives 2.67 in Python. The model's
  `Round2(2.675)` is 2.68.
- The FastAPI plumbing is left out because it is framework I/O, not logic.
  This covers app construction, the CORS middleware, the route decorators
  and the root message (backend/app/main.py:14-23, 54-65).
- The catch-all `HTTPException(500)` wrappers are left out
  (backend/app/main.py:56-60, 113-116). On exact reals nothing in the
  computation raises.
- Pydantic validation beyond the visible defaults and `ge=0.0` checks is left
  out. This covers type coercion and the 422 error body: a refused body is
  just `None`.
- The React Native client is not part of this model, which covers only the
  backend. Besides rendering, the client holds logic of its own:
  - The budget screen checks that a category name is not blank. It parses
    amounts with `parseFloat(..) || 0` and computes its own totals and
    remaining (app/(tabs)/budget_tracker/index.tsx:14-39).
  - The savings screen requires a date range of at least 7 days and blocks a
    second submission for 300 ms (app/(tabs)/savings/index.tsx:29-37).
  - The timeline screen splits a savings goal into 5 parts
    (app/(tabs)/timeline/index.tsx:21-22).
