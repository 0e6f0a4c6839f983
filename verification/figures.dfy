/** The figures model.py derives from query results: the start date of
    `get_spending_by_category`, net savings and savings rate in
    `get_monthly_summary`, and budget utilisation in `get_budgets`. Query
    results are inputs; a SQL `NULL` is `None`. */
module Figures {
  import opened Outcomes
  import opened Dates

  // ---------------------------------------------------------------------
  // get_spending_by_category: the first day of the reporting window

  /** The default window: the current calendar month. */
  const DefaultWindow: int := 30

  /** The start date as the source computes it: the first of the month for
      the default, otherwise `today.replace(day=today.day - days + 1)`, which
      raises `ValueError` when that day number is not in today's month. */
  function SpendingStartDate(today: CalendarDate, days: int): (r: Result<CalendarDate>)
    ensures days == DefaultWindow ==> r == Ok(Date(today.year, today.month, 1))
    ensures days != DefaultWindow ==>
              (r.Ok? <==> today.day - DaysInMonth(today.year, today.month) < days <= today.day)
    ensures r.Ok? ==> r.value.year == today.year && r.value.month == today.month
    ensures r.Ok? && days != DefaultWindow ==> r.value.day == today.day - days + 1
    ensures r.Err? ==> r.error == ValueError("day is out of range for month")
  {
    if days == DefaultWindow then ReplaceDay(today, 1)
    else ReplaceDay(today, today.day - days + 1)
  }

  /** The start date of "the last `days` days" ending today: `days - 1` days
      before today, or the first of the month for the default window. */
  function WindowStart(today: CalendarDate, days: int): (r: Result<CalendarDate>)
    ensures days == DefaultWindow ==> r == Ok(Date(today.year, today.month, 1))
    ensures days != DefaultWindow ==> (r.Ok? <==> days <= Ordinal(today) <= Ordinal(LastDate) + days - 1)
    ensures days != DefaultWindow && r.Ok? ==> Ordinal(today) - Ordinal(r.value) + 1 == days
    ensures r.Err? ==> r.error == OverflowError("date value out of range")
  {
    if days == DefaultWindow then Ok(Date(today.year, today.month, 1))
    else ShiftDays(today, 1 - days)
  }

  /** A window of a positive number of days ending today starts on or
      before today, and on a representable date unless it reaches back
      past year 1. */
  lemma WindowStartsBeforeToday(today: CalendarDate, days: int)
    requires days >= 1 && days != DefaultWindow
    ensures WindowStart(today, days).Ok? <==> days <= Ordinal(today)
    ensures WindowStart(today, days).Ok? ==> OnOrBefore(WindowStart(today, days).value, today)
  {
    OrdinalRange(today);
    var r := WindowStart(today, days);
    if r.Ok? {
      OrdinalOrder(r.value, today);
    }
  }

  /** Two dates of the same month are as many days apart as their day numbers. */
  lemma SameMonthOrdinals(a: CalendarDate, b: CalendarDate)
    requires a.year == b.year && a.month == b.month
    ensures Ordinal(a) - Ordinal(b) == a.day - b.day
  {
  }

  /** Wherever the source's computation succeeds, it agrees with the window
      start: the fault is only in the cases it rejects. */
  lemma SpendingStartAgreesWhenDefined(today: CalendarDate, days: int)
    requires SpendingStartDate(today, days).Ok?
    ensures WindowStart(today, days) == SpendingStartDate(today, days)
  {
    if days != DefaultWindow {
      var s := SpendingStartDate(today, days).value;
      SameMonthOrdinals(today, s);
      OrdinalRange(s);
      OrdinalRange(today);
      var w := WindowStart(today, days);
      OrdinalOrder(w.value, s);
    }
  }

  /** A window reaching back into the previous month: on 5 March 2024 the
      last seven days start on 28 February, yet the source asks for day -1
      of March and raises. */
  lemma SpendingStartRejectsWindowAcrossMonths()
    ensures SpendingStartDate(Date(2024, 3, 5), 7) == Err(ValueError("day is out of range for month"))
    ensures WindowStart(Date(2024, 3, 5), 7) == Ok(Date(2024, 2, 28))
  {
    var today: CalendarDate := Date(2024, 3, 5);
    var start: CalendarDate := Date(2024, 2, 28);
    assert DaysBeforeMonth(2024, 3) == DaysBeforeMonth(2024, 2) + 29;
    assert Ordinal(start) == Ordinal(today) - 6;
    OrdinalRange(start);
    OrdinalOrder(WindowStart(today, 7).value, start);
  }

  // ---------------------------------------------------------------------
  // get_monthly_summary: net savings and savings rate

  /** The one row the monthly aggregate returns. `SUM` over no rows is
      `NULL`; the counts are never `NULL`. */
  datatype MonthRow = MonthRow(
    totalIncome: Option<real>,
    totalExpense: Option<real>,
    incomeCount: nat,
    expenseCount: nat)

  datatype MonthlySummary = MonthlySummary(
    totalIncome: real,
    totalExpense: real,
    incomeCount: nat,
    expenseCount: nat,
    netSavings: real,
    savingsRate: real)

  /** Savings as a percentage of income; 0 without positive income. */
  function SavingsRate(income: real, net: real): (rate: real)
    ensures income > 0.0 ==> rate * income == net * 100.0
    ensures income <= 0.0 ==> rate == 0.0
  {
    if income > 0.0 then (net / income) * 100.0 else 0.0
  }

  /** The figures over sums that are present. */
  function MonthFigures(income: real, expense: real, incomeCount: nat, expenseCount: nat): (s: MonthlySummary)
    ensures s.netSavings + s.totalExpense == s.totalIncome
    ensures s.totalIncome > 0.0 ==> s.savingsRate * s.totalIncome == s.netSavings * 100.0
    ensures s.totalIncome <= 0.0 ==> s.savingsRate == 0.0
    ensures s.totalIncome == income && s.totalExpense == expense
    ensures s.incomeCount == incomeCount && s.expenseCount == expenseCount
  {
    var net := income - expense;
    MonthlySummary(income, expense, incomeCount, expenseCount, net, SavingsRate(income, net))
  }

  /** `get_monthly_summary` as written: `float()` of each sum, which raises
      `TypeError` when a sum is `NULL`. */
  function MonthlyFigures(row: MonthRow): (r: Result<MonthlySummary>)
    ensures r.Ok? <==> row.totalIncome.Some? && row.totalExpense.Some?
    ensures r.Err? ==> r.error == TypeError(NoneToFloat)
    ensures r.Ok? ==> r.value == MonthFigures(row.totalIncome.value, row.totalExpense.value, row.incomeCount, row.expenseCount)
  {
    match (row.totalIncome, row.totalExpense)
    case (Some(income), Some(expense)) =>
      Ok(MonthFigures(income, expense, row.incomeCount, row.expenseCount))
    case _ => Err(TypeError(NoneToFloat))
  }

  /** The month's figures with a `NULL` sum read as 0 (`COALESCE(SUM(...), 0)`). */
  function MonthlyFiguresCoalesced(row: MonthRow): (s: MonthlySummary)
    ensures s.totalIncome == row.totalIncome.GetOr(0.0) && s.totalExpense == row.totalExpense.GetOr(0.0)
    ensures s.netSavings + s.totalExpense == s.totalIncome
  {
    MonthFigures(row.totalIncome.GetOr(0.0), row.totalExpense.GetOr(0.0), row.incomeCount, row.expenseCount)
  }

  /** Where the source succeeds, reading `NULL` as 0 changes nothing. */
  lemma CoalescedAgreesWhenDefined(row: MonthRow)
    requires MonthlyFigures(row).Ok?
    ensures MonthlyFigures(row) == Ok(MonthlyFiguresCoalesced(row))
  {
  }

  /** A month without transactions: both sums are `NULL`, so the source
      raises, while the coalesced figures are all zero. */
  lemma EmptyMonthRaises()
    ensures MonthlyFigures(MonthRow(None, None, 0, 0)).Err?
    ensures MonthlyFiguresCoalesced(MonthRow(None, None, 0, 0)) == MonthlySummary(0.0, 0.0, 0, 0, 0.0, 0.0)
  {
  }

  /** The savings rate has the sign of the savings when there is income,
      and reaches 100 exactly when nothing was spent. */
  lemma SavingsRateSign(income: real, expense: real)
    requires income > 0.0
    ensures var s := MonthFigures(income, expense, 0, 0);
            && (s.savingsRate > 0.0 <==> s.netSavings > 0.0)
            && (s.savingsRate == 0.0 <==> s.netSavings == 0.0)
            && (s.savingsRate == 100.0 <==> expense == 0.0)
            && (expense >= 0.0 ==> s.savingsRate <= 100.0)
  {
    var s := MonthFigures(income, expense, 0, 0);
    assert s.savingsRate * income == (income - expense) * 100.0;
    if s.savingsRate > 0.0 {
      assert s.savingsRate * income > 0.0;
    }
    if s.netSavings > 0.0 {
      assert s.savingsRate * income > 0.0;
    }
    if s.savingsRate == 100.0 {
      assert 100.0 * income == (income - expense) * 100.0;
    }
  }

  // ---------------------------------------------------------------------
  // get_budgets: utilisation and remaining amount

  /** A budget row with the month's spending in its category (`COALESCE`
      makes `spent` 0 when there is none). */
  datatype BudgetRow = BudgetRow(category: string, amount: real, spent: real)

  datatype BudgetReport = BudgetReport(row: BudgetRow, utilization: real, remaining: real)

  /** `spent / amount * 100` and `amount - spent`; a zero amount raises. */
  function BudgetFigures(b: BudgetRow): (r: Result<BudgetReport>)
    ensures r.Ok? <==> b.amount != 0.0
    ensures r.Err? ==> r.error == ZeroDivisionError("float division by zero")
    ensures r.Ok? ==> r.value.row == b
    ensures r.Ok? ==> r.value.remaining + b.spent == b.amount
    ensures r.Ok? ==> r.value.utilization * b.amount == b.spent * 100.0
  {
    if b.amount == 0.0 then Err(ZeroDivisionError("float division by zero"))
    else Ok(BudgetReport(b, (b.spent / b.amount) * 100.0, b.amount - b.spent))
  }

  /** For a positive budget the remainder is non-negative exactly when
      utilisation is at most 100 percent. */
  lemma RemainingMatchesUtilization(b: BudgetRow)
    requires b.amount > 0.0
    ensures BudgetFigures(b).value.remaining >= 0.0 <==> BudgetFigures(b).value.utilization <= 100.0
  {
    var r := BudgetFigures(b).value;
    if r.utilization > 100.0 {
      assert r.utilization * b.amount > 100.0 * b.amount;
    }
    if r.remaining < 0.0 {
      assert b.spent * 100.0 > b.amount * 100.0;
    }
  }

  /** The loop over all budgets: every row gets its figures, and one zero
      amount makes the whole call raise. */
  function BudgetsReport(rows: seq<BudgetRow>): (r: Result<seq<BudgetReport>>)
    ensures r.Ok? <==> forall i :: 0 <= i < |rows| ==> rows[i].amount != 0.0
    ensures r.Err? ==> r.error == ZeroDivisionError("float division by zero")
    ensures r.Ok? ==> |r.value| == |rows| && forall i :: 0 <= i < |rows| ==> Ok(r.value[i]) == BudgetFigures(rows[i])
  {
    if |rows| == 0 then Ok([])
    else
      var first :- BudgetFigures(rows[0]);
      var rest :- BudgetsReport(rows[1..]);
      Ok([first] + rest)
  }

  /** The Postgres schema requires every budget amount to be positive, so
      there the report never raises. */
  lemma PositiveBudgetsNeverRaise(rows: seq<BudgetRow>)
    requires forall i :: 0 <= i < |rows| ==> rows[i].amount > 0.0
    ensures BudgetsReport(rows).Ok?
  {
  }
}
