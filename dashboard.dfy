/**
 * The dashboard's analytics (app/routes/main.py): the current month's
 * totals, the category breakdown, the two chart series stepped back in
 * 30-day strides, and the ordered list of financial advisories.
 */
module Dashboard {
  import opened Wrappers
  import opened Records
  import opened Calendar
  import opened Ledger

  // ------------------------------------------------------- month totals

  /** The pair `get_current_month_data` returns. */
  datatype MonthTotals = MonthTotals(income: real, expense: real)

  /** `get_current_month_data`: the user's income and expense sums for the month of `now`; 0 when there are none. */
  function CurrentMonthTotals(incomes: seq<Income>, expenses: seq<Expense>, user: nat, now: Date): (t: MonthTotals)
    ensures (forall k :: 0 <= k < |incomes| ==> !IncomeInMonth(incomes[k], user, now.month, now.year)) ==> t.income == 0.0
    ensures (forall k :: 0 <= k < |expenses| ==> !ExpenseInMonth(expenses[k], user, now.month, now.year)) ==> t.expense == 0.0
  {
    MonthTotals(IncomeTotal(incomes, user, now.month, now.year), ExpenseTotal(expenses, user, now.month, now.year))
  }

  /** `get_category_breakdown`: per-category expense sums for the month of `now`. */
  function CategoryBreakdown(cats: seq<Category>, expenses: seq<Expense>, user: nat, now: Date): (r: seq<CategoryShare>)
    ensures DistinctNames(r)
    ensures SumShares(r) == JoinedTotal(cats, expenses, user, now.month, now.year)
  {
    BreakdownDistinct(cats, expenses, user, now.month, now.year);
    BreakdownSum(cats, expenses, user, now.month, now.year);
    Breakdown(cats, expenses, user, now.month, now.year)
  }

  // ------------------------------------------------------- chart series

  /** The month a chart point is labelled with (`strftime('%b %Y')` of its date). */
  datatype MonthLabel = MonthLabel(year: int, month: int)

  function LabelOf(d: Date): MonthLabel {
    MonthLabel(d.year, d.month)
  }

  function LabelIndex(l: MonthLabel): int {
    MonthIndex(l.year, l.month)
  }

  /** One point of the expense trend line. */
  datatype TrendPoint = TrendPoint(period: MonthLabel, amount: real)

  /** One group of the income-versus-expense bars. */
  datatype ComparisonPoint = ComparisonPoint(period: MonthLabel, income: real, expense: real, savings: real)

  /** `now - timedelta(days=30 * i)`: the date the `i`-th step back lands on. */
  function StepBack(now: Date, i: nat): (d: Date)
    requires ValidDate(now)
    ensures ValidDate(d)
  {
    SubDays(now, 30 * i)
  }

  /** Stepping back further never lands in a later month. */
  lemma StepBackLabels(now: Date, i: nat, j: nat)
    requires ValidDate(now)
    requires i >= j
    ensures LabelIndex(LabelOf(StepBack(now, i))) <= LabelIndex(LabelOf(StepBack(now, j)))
  {
    SubDaysAntitone(now, 30 * j, 30 * i);
    MonthIndexFollowsDateKey(StepBack(now, i), StepBack(now, j));
  }

  /** The `i`-th step back lies exactly `30 * i` days before the reference date. */
  lemma StepBackDistance(now: Date, i: nat)
    requires ValidDate(now)
    ensures Ordinal(StepBack(now, i)) == Ordinal(now) - 30 * i
  {
    OrdinalSubDays(now, 30 * i);
  }

  function SeriesLength(months: int): nat {
    if months > 0 then months else 0
  }

  /** `get_monthly_expense_trend(months)`: for i = months-1 down to 0, the expense sum of the month 30*i days back. */
  method MonthlyExpenseTrend(expenses: seq<Expense>, user: nat, now: Date, months: int) returns (data: seq<TrendPoint>)
    requires ValidDate(now)
    ensures |data| == SeriesLength(months)
    ensures forall k :: 0 <= k < |data| ==>
      var d := StepBack(now, |data| - 1 - k);
      data[k] == TrendPoint(LabelOf(d), ExpenseTotal(expenses, user, d.month, d.year))
    ensures forall j, k :: 0 <= j < k < |data| ==> LabelIndex(data[j].period) <= LabelIndex(data[k].period)
    ensures |data| > 0 ==> data[|data| - 1].period == LabelOf(now)
  {
    var n := SeriesLength(months);
    data := [];
    for i := n downto 0
      invariant |data| == n - i
      invariant forall k :: 0 <= k < |data| ==>
        var d := StepBack(now, n - 1 - k);
        data[k] == TrendPoint(LabelOf(d), ExpenseTotal(expenses, user, d.month, d.year))
    {
      var target := StepBack(now, i);
      var total := ExpenseTotal(expenses, user, target.month, target.year);
      data := data + [TrendPoint(LabelOf(target), total)];
    }
    forall j, k | 0 <= j < k < |data| ensures LabelIndex(data[j].period) <= LabelIndex(data[k].period) {
      StepBackLabels(now, n - 1 - j, n - 1 - k);
    }
  }

  /** `get_income_vs_expense_data(months)`: income, expense and their difference for the same 30-day steps. */
  method IncomeVsExpense(incomes: seq<Income>, expenses: seq<Expense>, user: nat, now: Date, months: int)
    returns (data: seq<ComparisonPoint>)
    requires ValidDate(now)
    ensures |data| == SeriesLength(months)
    ensures forall k :: 0 <= k < |data| ==>
      var d := StepBack(now, |data| - 1 - k);
      && data[k].period == LabelOf(d)
      && data[k].income == IncomeTotal(incomes, user, d.month, d.year)
      && data[k].expense == ExpenseTotal(expenses, user, d.month, d.year)
    ensures forall k :: 0 <= k < |data| ==> data[k].savings == data[k].income - data[k].expense
    ensures forall j, k :: 0 <= j < k < |data| ==> LabelIndex(data[j].period) <= LabelIndex(data[k].period)
    ensures |data| > 0 ==> data[|data| - 1].period == LabelOf(now)
  {
    var n := SeriesLength(months);
    data := [];
    for i := n downto 0
      invariant |data| == n - i
      invariant forall k :: 0 <= k < |data| ==>
        var d := StepBack(now, n - 1 - k);
        && data[k].period == LabelOf(d)
        && data[k].income == IncomeTotal(incomes, user, d.month, d.year)
        && data[k].expense == ExpenseTotal(expenses, user, d.month, d.year)
        && data[k].savings == data[k].income - data[k].expense
    {
      var target := StepBack(now, i);
      var income := IncomeTotal(incomes, user, target.month, target.year);
      var expense := ExpenseTotal(expenses, user, target.month, target.year);
      data := data + [ComparisonPoint(LabelOf(target), income, expense, income - expense)];
    }
    forall j, k | 0 <= j < k < |data| ensures LabelIndex(data[j].period) <= LabelIndex(data[k].period) {
      StepBackLabels(now, n - 1 - j, n - 1 - k);
    }
  }

  // ----------------------------------------------------------- advisories

  /** The insights as structured values: which advisory and the figure it reports. */
  datatype Advisory =
    | SavingsGreat(pct: real)
    | SavingsGood(pct: real)
    | SavingsLow(pct: real)
    | SpendingExceedsIncome
    | SpendingUp(pct: real)
    | SpendingDown(pct: real)
    | BudgetExceeded(over: real)
    | BudgetApproaching(remaining: real)
    | TopCategory(name: string, pct: real)

  /** Which of the four checks an advisory comes from, in the order they run. */
  function CheckOf(a: Advisory): nat {
    match a
    case SavingsGreat(_) | SavingsGood(_) | SavingsLow(_) | SpendingExceedsIncome => 0
    case SpendingUp(_) | SpendingDown(_) => 1
    case BudgetExceeded(_) | BudgetApproaching(_) => 2
    case TopCategory(_, _) => 3
  }

  /** `savings / income_total * 100`. */
  function SavingsPct(income: real, expense: real): (r: real)
    requires income > 0.0
    ensures r >= 0.0 <==> expense <= income
    ensures expense >= 0.0 ==> r <= 100.0
  {
    (income - expense) / income * 100.0
  }

  /** Helper: for a positive base, comparing a percentage of it with `c` is comparing the part with `c`% of the base. */
  lemma PercentCompare(part: real, base: real, c: real)
    requires base > 0.0
    ensures part / base * 100.0 >= c <==> part * 100.0 >= c * base
    ensures part / base * 100.0 > c <==> part * 100.0 > c * base
  {
    var p := part / base;
    assert p * base == part;
    if p * 100.0 >= c {
      assert p * 100.0 * base >= c * base;
    } else {
      assert p * 100.0 * base < c * base;
    }
    if p * 100.0 > c {
      assert p * 100.0 * base > c * base;
    } else {
      assert p * 100.0 * base <= c * base;
    }
  }

  /** The savings-rate check: one advisory exactly when there is income, in the tier the percentage falls in. */
  function SavingsAdvice(income: real, expense: real): (r: Option<Advisory>)
    ensures r.Some? <==> income > 0.0
    ensures r.Some? ==> CheckOf(r.value) == 0
    ensures r.Some? && r.value.SavingsGreat? ==> r.value.pct >= 20.0
    ensures r.Some? && r.value.SavingsGood? ==> 10.0 <= r.value.pct < 20.0
    ensures r.Some? && r.value.SavingsLow? ==> 0.0 < r.value.pct < 10.0
    ensures r.Some? && !r.value.SpendingExceedsIncome? ==> r.value.pct == SavingsPct(income, expense)
    ensures r.Some? && r.value.SpendingExceedsIncome? ==> SavingsPct(income, expense) <= 0.0
  {
    if income > 0.0 then
      var pct := SavingsPct(income, expense);
      if pct >= 20.0 then Some(SavingsGreat(pct))
      else if pct >= 10.0 then Some(SavingsGood(pct))
      else if pct > 0.0 then Some(SavingsLow(pct))
      else Some(SpendingExceedsIncome)
    else None
  }

  /** The savings tiers restated without division: the share of income spent decides the tier. */
  lemma SavingsTiers(income: real, expense: real)
    requires income > 0.0
    ensures SavingsAdvice(income, expense).value.SavingsGreat? <==> expense <= 0.8 * income
    ensures SavingsAdvice(income, expense).value.SavingsGood? <==> 0.8 * income < expense <= 0.9 * income
    ensures SavingsAdvice(income, expense).value.SavingsLow? <==> 0.9 * income < expense < income
    ensures SavingsAdvice(income, expense).value.SpendingExceedsIncome? <==> expense >= income
  {
    PercentCompare(income - expense, income, 20.0);
    PercentCompare(income - expense, income, 10.0);
    PercentCompare(income - expense, income, 0.0);
  }

  /** The month-over-month check: it fires only against a positive previous month, outside the ±10% band. */
  function MonthOverMonthAdvice(current: real, previous: real): (r: Option<Advisory>)
    ensures r.Some? ==> previous > 0.0 && CheckOf(r.value) == 1
    ensures (r.Some? && r.value.SpendingUp?) <==> previous > 0.0 && current > previous * 1.1
    ensures (r.Some? && r.value.SpendingDown?) <==> previous > 0.0 && current < previous * 0.9
    ensures r.None? <==> previous <= 0.0 || previous * 0.9 <= current <= previous * 1.1
    ensures r.Some? && r.value.SpendingUp? ==> r.value.pct > 10.0 && previous * (1.0 + r.value.pct / 100.0) == current
    ensures r.Some? && r.value.SpendingDown? ==> r.value.pct > 10.0 && previous * (1.0 - r.value.pct / 100.0) == current
    ensures r.Some? && r.value.SpendingDown? && current >= 0.0 ==> r.value.pct <= 100.0
  {
    if previous > 0.0 && current > previous * 1.1 then
      var increase := (current - previous) / previous * 100.0;
      PercentCompare(current - previous, previous, 10.0);
      Some(SpendingUp(increase))
    else if previous > 0.0 && current < previous * 0.9 then
      var decrease := (previous - current) / previous * 100.0;
      PercentCompare(previous - current, previous, 10.0);
      PercentCompare(previous - current, previous, 100.0);
      Some(SpendingDown(decrease))
    else None
  }

  /** The budget check: "exceeded" over the budget, else "approaching" above 90% of it. */
  function BudgetAdvice(expense: real, budget: Option<Budget>): (r: Option<Advisory>)
    ensures r.Some? ==> budget.Some? && CheckOf(r.value) == 2
    ensures (r.Some? && r.value.BudgetExceeded?) <==> budget.Some? && expense > budget.value.amount
    ensures (r.Some? && r.value.BudgetApproaching?) <==>
      budget.Some? && budget.value.amount * 0.9 < expense <= budget.value.amount
    ensures r.Some? && r.value.BudgetExceeded? ==> r.value.over > 0.0 && budget.value.amount + r.value.over == expense
    ensures r.Some? && r.value.BudgetApproaching? ==>
      && budget.value.amount > 0.0
      && 0.0 <= r.value.remaining < budget.value.amount * 0.1
      && expense + r.value.remaining == budget.value.amount
  {
    match budget
    case None => None
    case Some(b) =>
      if expense > b.amount then Some(BudgetExceeded(expense - b.amount))
      else if expense > b.amount * 0.9 then Some(BudgetApproaching(b.amount - expense))
      else None
  }

  /** `max(categories, key=amount)`: the index of the first share with the largest amount. */
  function FirstMaxIndex(shares: seq<CategoryShare>): (k: nat)
    requires |shares| > 0
    ensures k < |shares|
    ensures forall j :: 0 <= j < |shares| ==> shares[j].amount <= shares[k].amount
    ensures forall j :: 0 <= j < k ==> shares[j].amount < shares[k].amount
  {
    if |shares| == 1 then 0
    else
      var k := FirstMaxIndex(shares[..|shares| - 1]);
      if shares[|shares| - 1].amount > shares[k].amount then |shares| - 1 else k
  }

  /** The dominant-category check: the first largest category, when it holds more than 40% of a positive total. */
  function DominantCategoryAdvice(shares: seq<CategoryShare>, total: real): (r: Option<Advisory>)
    ensures r.Some? ==> |shares| > 0 && total > 0.0 && CheckOf(r.value) == 3
    ensures r.Some? <==> |shares| > 0 && total > 0.0 && shares[FirstMaxIndex(shares)].amount > total * 0.4
    ensures r.Some? ==> r.value.name == shares[FirstMaxIndex(shares)].name
    ensures r.Some? ==> r.value.pct > 40.0 && r.value.pct * total == shares[FirstMaxIndex(shares)].amount * 100.0
  {
    if shares == [] then None
    else
      var top := shares[FirstMaxIndex(shares)];
      if top.amount > total * 0.4 && total > 0.0 then
        PercentCompare(top.amount, total, 40.0);
        Some(TopCategory(top.name, top.amount / total * 100.0))
      else None
  }

  /**
   * When every expense is positive and every expense of the month has a
   * category, the dominant category's reported share is at most 100%.
   */
  lemma DominantShareAtMostWhole(cats: seq<Category>, expenses: seq<Expense>, user: nat, now: Date)
    requires forall k :: 0 <= k < |expenses| ==> expenses[k].amount > 0.0
    requires forall k :: 0 <= k < |expenses| && ExpenseInMonth(expenses[k], user, now.month, now.year) ==>
      CategoryNameOf(cats, expenses[k].categoryId).Some?
    ensures var r := DominantCategoryAdvice(CategoryBreakdown(cats, expenses, user, now),
                                             ExpenseTotal(expenses, user, now.month, now.year));
      r.Some? ==> r.value.pct <= 100.0
  {
    var shares := CategoryBreakdown(cats, expenses, user, now);
    var total := ExpenseTotal(expenses, user, now.month, now.year);
    var r := DominantCategoryAdvice(shares, total);
    if r.Some? {
      BreakdownCoversMonth(cats, expenses, user, now.month, now.year);
      BreakdownPositive(cats, expenses, user, now.month, now.year);
      var k := FirstMaxIndex(shares);
      ShareAtMostSum(shares, k);
      WholeIsHundredPercent(shares[k].amount, total);
      assert r.value.pct == shares[k].amount / total * 100.0;
    }
  }

  lemma WholeIsHundredPercent(part: real, whole: real)
    requires whole > 0.0 && part <= whole
    ensures part / whole * 100.0 <= 100.0
  {
    PercentCompare(part, whole, 100.0);
  }

  function Emit(a: Option<Advisory>): seq<Advisory> {
    if a.Some? then [a.value] else []
  }

  /** `Budget.query.filter_by(user_id, month, year).first()`. */
  function BudgetOf(bs: seq<Budget>, user: nat, month: int, year: int): (r: Option<Budget>)
    ensures r.Some? ==> r.value in bs && BudgetFor(r.value, user, month, year)
    ensures r.None? <==> forall k :: 0 <= k < |bs| ==> !BudgetFor(bs[k], user, month, year)
  {
    match FindBudget(bs, user, month, year)
    case None => None
    case Some(k) => Some(bs[k])
  }

  /**
   * `get_financial_insights`: the advisories of the four checks, each
   * appended when it fires, in the order savings, month-over-month,
   * budget, category. Nothing is written.
   */
  method FinancialInsights(incomes: seq<Income>, expenses: seq<Expense>, budgets: seq<Budget>, cats: seq<Category>,
                           user: nat, now: Date) returns (insights: seq<Advisory>)
    requires ValidDate(now)
    ensures
      var totals := CurrentMonthTotals(incomes, expenses, user, now);
      var prev := PreviousMonth(now.month, now.year);
      insights ==
        Emit(SavingsAdvice(totals.income, totals.expense))
        + Emit(MonthOverMonthAdvice(totals.expense, ExpenseTotal(expenses, user, prev.0, prev.1)))
        + Emit(BudgetAdvice(totals.expense, BudgetOf(budgets, user, now.month, now.year)))
        + Emit(DominantCategoryAdvice(CategoryBreakdown(cats, expenses, user, now), totals.expense))
    ensures |insights| <= 4
    ensures forall i, j :: 0 <= i < j < |insights| ==> CheckOf(insights[i]) < CheckOf(insights[j])
  {
    insights := [];
    var totals := CurrentMonthTotals(incomes, expenses, user, now);
    var income, expense := totals.income, totals.expense;
    insights := AppendSavings(insights, income, expense);
    assert insights == Emit(SavingsAdvice(income, expense));

    var prevMonth := PreviousMonth(now.month, now.year);
    var prevExpense := ExpenseTotal(expenses, user, prevMonth.0, prevMonth.1);
    insights := AppendMonthOverMonth(insights, expense, prevExpense);

    var budget := BudgetOf(budgets, user, now.month, now.year);
    insights := AppendBudget(insights, expense, budget);

    var shares := CategoryBreakdown(cats, expenses, user, now);
    insights := AppendDominantCategory(insights, shares, expense);
    assert insights == Emit(SavingsAdvice(income, expense)) + Emit(MonthOverMonthAdvice(expense, prevExpense))
      + Emit(BudgetAdvice(expense, budget)) + Emit(DominantCategoryAdvice(shares, expense));

    EmitInOrder(SavingsAdvice(income, expense), MonthOverMonthAdvice(expense, prevExpense),
                BudgetAdvice(expense, budget), DominantCategoryAdvice(shares, expense));
  }

  /**
   * The savings-rate block of `get_financial_insights` as the code runs it:
   * branch by branch, appending at most one advisory to the list built
   * so far. `SavingsAdvice` states which advisory the block yields; this
   * method is the in-place append, proved to add exactly that one.
   */
  method AppendSavings(insights: seq<Advisory>, income: real, expense: real) returns (r: seq<Advisory>)
    ensures r == insights + Emit(SavingsAdvice(income, expense))
  {
    r := insights;
    if income > 0.0 {
      var pct := SavingsPct(income, expense);
      if pct >= 20.0 {
        r := r + [SavingsGreat(pct)];
      } else if pct >= 10.0 {
        r := r + [SavingsGood(pct)];
      } else if pct > 0.0 {
        r := r + [SavingsLow(pct)];
      } else {
        r := r + [SpendingExceedsIncome];
      }
    }
  }

  /**
   * The month-over-month block of `get_financial_insights` as the code runs it:
   * branch by branch, appending at most one advisory to the list built
   * so far. `MonthOverMonthAdvice` states which advisory the block yields; this
   * method is the in-place append, proved to add exactly that one.
   */
  method AppendMonthOverMonth(insights: seq<Advisory>, expense: real, prevExpense: real) returns (r: seq<Advisory>)
    ensures r == insights + Emit(MonthOverMonthAdvice(expense, prevExpense))
  {
    r := insights;
    if prevExpense > 0.0 && expense > prevExpense * 1.1 {
      r := r + [SpendingUp((expense - prevExpense) / prevExpense * 100.0)];
    } else if prevExpense > 0.0 && expense < prevExpense * 0.9 {
      r := r + [SpendingDown((prevExpense - expense) / prevExpense * 100.0)];
    }
  }

  /**
   * The budget block of `get_financial_insights` as the code runs it:
   * branch by branch, appending at most one advisory to the list built
   * so far. `BudgetAdvice` states which advisory the block yields; this
   * method is the in-place append, proved to add exactly that one.
   */
  method AppendBudget(insights: seq<Advisory>, expense: real, budget: Option<Budget>) returns (r: seq<Advisory>)
    ensures r == insights + Emit(BudgetAdvice(expense, budget))
  {
    r := insights;
    if budget.Some? {
      if expense > budget.value.amount {
        r := r + [BudgetExceeded(expense - budget.value.amount)];
      } else if expense > budget.value.amount * 0.9 {
        r := r + [BudgetApproaching(budget.value.amount - expense)];
      }
    }
  }

  /**
   * The dominant-category block of `get_financial_insights` as the code runs it:
   * branch by branch, appending at most one advisory to the list built
   * so far. `DominantCategoryAdvice` states which advisory the block yields; this
   * method is the in-place append, proved to add exactly that one.
   */
  method AppendDominantCategory(insights: seq<Advisory>, shares: seq<CategoryShare>, expense: real)
    returns (r: seq<Advisory>)
    ensures r == insights + Emit(DominantCategoryAdvice(shares, expense))
  {
    r := insights;
    if shares != [] {
      var top := shares[FirstMaxIndex(shares)];
      if top.amount > expense * 0.4 && expense > 0.0 {
        r := r + [TopCategory(top.name, top.amount / expense * 100.0)];
      }
    }
  }

  /** Four checks that each emit at most one advisory of their own kind give at most four, in check order. */
  lemma EmitInOrder(a: Option<Advisory>, b: Option<Advisory>, c: Option<Advisory>, d: Option<Advisory>)
    requires a.Some? ==> CheckOf(a.value) == 0
    requires b.Some? ==> CheckOf(b.value) == 1
    requires c.Some? ==> CheckOf(c.value) == 2
    requires d.Some? ==> CheckOf(d.value) == 3
    ensures |Emit(a) + Emit(b) + Emit(c) + Emit(d)| <= 4
    ensures var s := Emit(a) + Emit(b) + Emit(c) + Emit(d);
      forall i, j :: 0 <= i < j < |s| ==> CheckOf(s[i]) < CheckOf(s[j])
  {
    var s0: seq<Advisory> := [];
    EmitAfter(s0, a, 0);
    var s1 := s0 + Emit(a);
    EmitAfter(s1, b, 1);
    var s2 := s1 + Emit(b);
    EmitAfter(s2, c, 2);
    var s3 := s2 + Emit(c);
    EmitAfter(s3, d, 3);
    var s4 := s3 + Emit(d);
    assert s1 == Emit(a);
    assert s4 == Emit(a) + Emit(b) + Emit(c) + Emit(d);
    assert InCheckOrder(s4);
  }

  /** Advisories listed in strictly increasing check order. */
  predicate InCheckOrder(s: seq<Advisory>) {
    forall i, j :: 0 <= i < j < |s| ==> CheckOf(s[i]) < CheckOf(s[j])
  }

  /** Advisories all from checks before check `c`. */
  predicate ChecksBefore(s: seq<Advisory>, c: nat) {
    forall i :: 0 <= i < |s| ==> CheckOf(s[i]) < c
  }

  /** Appending the advisory of check `c` after advisories of earlier checks keeps the check order. */
  lemma EmitAfter(s: seq<Advisory>, a: Option<Advisory>, c: nat)
    requires |s| <= c && InCheckOrder(s) && ChecksBefore(s, c)
    requires a.Some? ==> CheckOf(a.value) == c
    ensures |s + Emit(a)| <= c + 1 && InCheckOrder(s + Emit(a)) && ChecksBefore(s + Emit(a), c + 1)
  {
    var r := s + Emit(a);
    forall i, j | 0 <= i < j < |r| ensures CheckOf(r[i]) < CheckOf(r[j]) {
      assert r[i] == s[i];
      if j >= |s| {
        assert r[j] == a.value;
      } else {
        assert r[j] == s[j];
      }
    }
  }



  /** What the dashboard page shows. */
  datatype DashboardView = DashboardView(
    incomeTotal: real,
    expenseTotal: real,
    savings: real,
    categoryData: seq<CategoryShare>,
    monthlyData: seq<TrendPoint>,
    incomeVsExpense: seq<ComparisonPoint>,
    insights: seq<Advisory>)

  /** `dashboard`: the month's totals and savings, the breakdown, six-point chart series and the insights. */
  method ShowDashboard(incomes: seq<Income>, expenses: seq<Expense>, budgets: seq<Budget>, cats: seq<Category>,
                       user: nat, now: Date) returns (view: DashboardView)
    requires ValidDate(now)
    ensures view.incomeTotal == CurrentMonthTotals(incomes, expenses, user, now).income
    ensures view.expenseTotal == CurrentMonthTotals(incomes, expenses, user, now).expense
    ensures view.savings == view.incomeTotal - view.expenseTotal
    ensures view.categoryData == CategoryBreakdown(cats, expenses, user, now)
    ensures |view.monthlyData| == 6 && |view.incomeVsExpense| == 6
    ensures view.monthlyData[5].period == LabelOf(now) && view.incomeVsExpense[5].period == LabelOf(now)
    ensures |view.insights| <= 4
  {
    var totals := CurrentMonthTotals(incomes, expenses, user, now);
    var monthly := MonthlyExpenseTrend(expenses, user, now, 6);
    var comparison := IncomeVsExpense(incomes, expenses, user, now, 6);
    var insights := FinancialInsights(incomes, expenses, budgets, cats, user, now);
    view := DashboardView(totals.income, totals.expense, totals.income - totals.expense,
                          CategoryBreakdown(cats, expenses, user, now), monthly, comparison, insights);
  }
}
