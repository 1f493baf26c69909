/**
 * The aggregate queries the dashboard and the budget list ask of the
 * expense, income, budget and category tables: monthly sums, the budget
 * lookup, and the per-category breakdown (a join of expenses with
 * categories grouped by category name).
 */
module Ledger {
  import opened Wrappers
  import opened Records
  import opened Queries

  // ------------------------------------------------------- monthly sums

  /** `Expense.user_id == user` and the expense date lies in (month, year). */
  predicate ExpenseInMonth(e: Expense, user: nat, month: int, year: int) {
    e.userId == user && e.date.month == month && e.date.year == year
  }

  /** `Income.user_id == user` and the income date lies in (month, year). */
  predicate IncomeInMonth(i: Income, user: nat, month: int, year: int) {
    i.userId == user && i.date.month == month && i.date.year == year
  }

  function ExpenseAmount(e: Expense): real { e.amount }
  function IncomeAmount(i: Income): real { i.amount }

  /** `sum(Expense.amount)` over the user's expenses of (month, year), `or 0`. */
  function ExpenseTotal(es: seq<Expense>, user: nat, month: int, year: int): (r: real)
    ensures (forall k :: 0 <= k < |es| ==> !ExpenseInMonth(es[k], user, month, year)) ==> r == 0.0
  {
    SumWhere(es, e => ExpenseInMonth(e, user, month, year), ExpenseAmount)
  }

  /** `sum(Income.amount)` over the user's income of (month, year), `or 0`. */
  function IncomeTotal(ins: seq<Income>, user: nat, month: int, year: int): (r: real)
    ensures (forall k :: 0 <= k < |ins| ==> !IncomeInMonth(ins[k], user, month, year)) ==> r == 0.0
  {
    SumWhere(ins, i => IncomeInMonth(i, user, month, year), IncomeAmount)
  }

  /** Adding an expense row raises exactly its own month's total, by its amount. */
  lemma ExpenseTotalAfterInsert(es: seq<Expense>, e: Expense, user: nat, month: int, year: int)
    ensures ExpenseTotal(es + [e], user, month, year)
         == ExpenseTotal(es, user, month, year) + (if ExpenseInMonth(e, user, month, year) then e.amount else 0.0)
  {
    assert (es + [e])[..|es + [e]| - 1] == es;
  }

  /** Adding an income row raises exactly its own month's total, by its amount. */
  lemma IncomeTotalAfterInsert(ins: seq<Income>, i: Income, user: nat, month: int, year: int)
    ensures IncomeTotal(ins + [i], user, month, year)
         == IncomeTotal(ins, user, month, year) + (if IncomeInMonth(i, user, month, year) then i.amount else 0.0)
  {
    assert (ins + [i])[..|ins + [i]| - 1] == ins;
  }

  /** Rows of other users or other months never affect a month's total. */
  lemma ExpenseTotalIgnoresOthers(es: seq<Expense>, others: seq<Expense>, user: nat, month: int, year: int)
    requires forall k :: 0 <= k < |others| ==> !ExpenseInMonth(others[k], user, month, year)
    ensures ExpenseTotal(es + others, user, month, year) == ExpenseTotal(es, user, month, year)
  {
    SumWhereAppend(es, others, e => ExpenseInMonth(e, user, month, year), ExpenseAmount);
  }

  /** With positive amounts a month's expense total is non-negative, and positive exactly when the user spent that month. */
  lemma ExpenseTotalPositive(es: seq<Expense>, user: nat, month: int, year: int)
    requires forall k :: 0 <= k < |es| ==> es[k].amount > 0.0
    ensures ExpenseTotal(es, user, month, year) >= 0.0
    ensures ExpenseTotal(es, user, month, year) > 0.0 <==> exists k :: 0 <= k < |es| && ExpenseInMonth(es[k], user, month, year)
  {
    SumWherePositive(es, e => ExpenseInMonth(e, user, month, year), ExpenseAmount);
  }

  /** With positive amounts a month's income total is non-negative, and positive exactly when the user earned that month. */
  lemma IncomeTotalPositive(ins: seq<Income>, user: nat, month: int, year: int)
    requires forall k :: 0 <= k < |ins| ==> ins[k].amount > 0.0
    ensures IncomeTotal(ins, user, month, year) >= 0.0
    ensures IncomeTotal(ins, user, month, year) > 0.0 <==> exists k :: 0 <= k < |ins| && IncomeInMonth(ins[k], user, month, year)
  {
    SumWherePositive(ins, i => IncomeInMonth(i, user, month, year), IncomeAmount);
  }

  // ----------------------------------------------------- budget lookup

  predicate BudgetFor(b: Budget, user: nat, month: int, year: int) {
    b.userId == user && b.month == month && b.year == year
  }

  /** `Budget.query.filter_by(user_id, month, year).first()`, as a row index. */
  function FindBudget(bs: seq<Budget>, user: nat, month: int, year: int): (r: Option<nat>)
    ensures r.None? <==> forall k :: 0 <= k < |bs| ==> !BudgetFor(bs[k], user, month, year)
    ensures r.Some? ==> r.value < |bs| && BudgetFor(bs[r.value], user, month, year)
    ensures r.Some? ==> forall k :: 0 <= k < r.value ==> !BudgetFor(bs[k], user, month, year)
  {
    if bs == [] then None
    else if BudgetFor(bs[0], user, month, year) then Some(0)
    else match FindBudget(bs[1..], user, month, year)
      case None => None
      case Some(k) => Some(k + 1)
  }

  // ------------------------------------------------ category breakdown

  /** One row of the category breakdown: a category name and its summed amount. */
  datatype CategoryShare = CategoryShare(name: string, amount: real)

  /** The name of the category row with this id, if any (the join of expenses with categories). */
  function CategoryNameOf(cats: seq<Category>, categoryId: nat): (r: Option<string>)
    ensures r.None? <==> forall k :: 0 <= k < |cats| ==> cats[k].id != categoryId
    ensures r.Some? ==> exists k :: 0 <= k < |cats| && cats[k].id == categoryId && cats[k].name == r.value
  {
    if cats == [] then None
    else if cats[0].id == categoryId then Some(cats[0].name)
    else
      var r := CategoryNameOf(cats[1..], categoryId);
      assert r.Some? ==> exists k :: 0 < k < |cats| && cats[k].id == categoryId && cats[k].name == r.value by {
        if r.Some? {
          var j :| 0 <= j < |cats[1..]| && cats[1..][j].id == categoryId && cats[1..][j].name == r.value;
          assert cats[j + 1] == cats[1..][j];
        }
      }
      r
  }

  /** The expense is one of the user's in (month, year) and joins a category. */
  predicate Joined(cats: seq<Category>, e: Expense, user: nat, month: int, year: int) {
    ExpenseInMonth(e, user, month, year) && CategoryNameOf(cats, e.categoryId).Some?
  }

  /** The expense is one of the user's in (month, year) and joins a category called `name`. */
  predicate InGroup(cats: seq<Category>, e: Expense, user: nat, month: int, year: int, name: string) {
    ExpenseInMonth(e, user, month, year) && CategoryNameOf(cats, e.categoryId) == Some(name)
  }

  /** Sum of the joined expenses of the month: what the breakdown distributes over its groups. */
  function JoinedTotal(cats: seq<Category>, es: seq<Expense>, user: nat, month: int, year: int): real {
    SumWhere(es, e => Joined(cats, e, user, month, year), ExpenseAmount)
  }

  /** `sum(Expense.amount)` for the group of category `name`. */
  function GroupTotal(cats: seq<Category>, es: seq<Expense>, user: nat, month: int, year: int, name: string): real {
    SumWhere(es, e => InGroup(cats, e, user, month, year, name), ExpenseAmount)
  }

  predicate HasName(shares: seq<CategoryShare>, name: string) {
    exists k :: 0 <= k < |shares| && shares[k].name == name
  }

  predicate DistinctNames(shares: seq<CategoryShare>) {
    forall i, j :: 0 <= i < j < |shares| ==> shares[i].name != shares[j].name
  }

  /** The amount of the group called `name`, 0 when there is none. */
  function ShareOf(shares: seq<CategoryShare>, name: string): real {
    if shares == [] then 0.0
    else if shares[0].name == name then shares[0].amount
    else ShareOf(shares[1..], name)
  }

  function SumShares(shares: seq<CategoryShare>): real {
    if shares == [] then 0.0 else shares[0].amount + SumShares(shares[1..])
  }

  /** Accumulates one joined row into its group, opening the group at the end if it is new. */
  function AddShare(shares: seq<CategoryShare>, name: string, amount: real): (r: seq<CategoryShare>)
    ensures |shares| <= |r| <= |shares| + 1
    ensures r[..|shares|] == shares || |r| == |shares|
  {
    if shares == [] then [CategoryShare(name, amount)]
    else if shares[0].name == name then [CategoryShare(name, shares[0].amount + amount)] + shares[1..]
    else [shares[0]] + AddShare(shares[1..], name, amount)
  }

  /**
   * The rows of `SELECT category_name, sum(amount) ... JOIN ... GROUP BY
   * category_name` for the user's expenses of (month, year), groups in
   * the order their first row appears.
   */
  function Breakdown(cats: seq<Category>, es: seq<Expense>, user: nat, month: int, year: int): (r: seq<CategoryShare>)
    ensures |r| <= |es|
    decreases |es|
  {
    if es == [] then []
    else
      var groups := Breakdown(cats, es[..|es| - 1], user, month, year);
      var e := es[|es| - 1];
      if !ExpenseInMonth(e, user, month, year) then groups
      else match CategoryNameOf(cats, e.categoryId)
        case None => groups
        case Some(name) => AddShare(groups, name, e.amount)
  }

  lemma {:induction false} AddShareSum(shares: seq<CategoryShare>, name: string, amount: real)
    ensures SumShares(AddShare(shares, name, amount)) == SumShares(shares) + amount
  {
    if shares != [] && shares[0].name != name {
      AddShareSum(shares[1..], name, amount);
    }
  }

  lemma {:induction false} AddShareOf(shares: seq<CategoryShare>, name: string, amount: real, x: string)
    ensures ShareOf(AddShare(shares, name, amount), x) == ShareOf(shares, x) + (if x == name then amount else 0.0)
  {
    if shares != [] && shares[0].name != name {
      AddShareOf(shares[1..], name, amount, x);
    }
  }

  lemma HasNameCons(h: CategoryShare, t: seq<CategoryShare>, x: string)
    ensures HasName([h] + t, x) <==> h.name == x || HasName(t, x)
  {
    var r := [h] + t;
    assert r[0] == h;
    if HasName(t, x) {
      var j :| 0 <= j < |t| && t[j].name == x;
      assert r[j + 1].name == x;
    }
    if HasName(r, x) {
      var k :| 0 <= k < |r| && r[k].name == x;
      if k > 0 {
        assert t[k - 1].name == x;
      }
    }
  }

  lemma {:induction false} AddShareNames(shares: seq<CategoryShare>, name: string, amount: real, x: string)
    ensures HasName(AddShare(shares, name, amount), x) <==> HasName(shares, x) || x == name
  {
    if shares == [] {
      HasNameCons(CategoryShare(name, amount), [], x);
      assert AddShare(shares, name, amount) == [CategoryShare(name, amount)] + [];
    } else {
      var tail := shares[1..];
      assert shares == [shares[0]] + tail;
      HasNameCons(shares[0], tail, x);
      if shares[0].name == name {
        HasNameCons(CategoryShare(name, shares[0].amount + amount), tail, x);
      } else {
        AddShareNames(tail, name, amount, x);
        HasNameCons(shares[0], AddShare(tail, name, amount), x);
      }
    }
  }


  lemma {:induction false} AddShareDistinct(shares: seq<CategoryShare>, name: string, amount: real)
    requires DistinctNames(shares)
    ensures DistinctNames(AddShare(shares, name, amount))
  {
    if shares != [] && shares[0].name != name {
      var t := AddShare(shares[1..], name, amount);
      AddShareDistinct(shares[1..], name, amount);
      forall x | HasName(t, x) ensures x != shares[0].name {
        AddShareNames(shares[1..], name, amount, x);
      }
      var r := AddShare(shares, name, amount);
      forall i, j | 0 <= i < j < |r| ensures r[i].name != r[j].name {
        if i == 0 {
          assert r[j].name == t[j - 1].name;
          assert HasName(t, t[j - 1].name);
        }
      }
    }
  }

  /** The breakdown has one row per category name. */
  lemma {:induction false} BreakdownDistinct(cats: seq<Category>, es: seq<Expense>, user: nat, month: int, year: int)
    ensures DistinctNames(Breakdown(cats, es, user, month, year))
    decreases |es|
  {
    if es != [] {
      var groups := Breakdown(cats, es[..|es| - 1], user, month, year);
      BreakdownDistinct(cats, es[..|es| - 1], user, month, year);
      var e := es[|es| - 1];
      if ExpenseInMonth(e, user, month, year) && CategoryNameOf(cats, e.categoryId).Some? {
        AddShareDistinct(groups, CategoryNameOf(cats, e.categoryId).value, e.amount);
      }
    }
  }

  /** The breakdown's amounts add up to the month's joined expense total. */
  lemma {:induction false} BreakdownSum(cats: seq<Category>, es: seq<Expense>, user: nat, month: int, year: int)
    ensures SumShares(Breakdown(cats, es, user, month, year)) == JoinedTotal(cats, es, user, month, year)
    decreases |es|
  {
    if es != [] {
      var groups := Breakdown(cats, es[..|es| - 1], user, month, year);
      BreakdownSum(cats, es[..|es| - 1], user, month, year);
      var e := es[|es| - 1];
      if ExpenseInMonth(e, user, month, year) && CategoryNameOf(cats, e.categoryId).Some? {
        AddShareSum(groups, CategoryNameOf(cats, e.categoryId).value, e.amount);
      }
    }
  }

  /** Each group's amount is the sum of the month's expenses joined with a category of that name. */
  lemma {:induction false} BreakdownShareOf(cats: seq<Category>, es: seq<Expense>, user: nat, month: int, year: int, x: string)
    ensures ShareOf(Breakdown(cats, es, user, month, year), x) == GroupTotal(cats, es, user, month, year, x)
    decreases |es|
  {
    if es != [] {
      var groups := Breakdown(cats, es[..|es| - 1], user, month, year);
      BreakdownShareOf(cats, es[..|es| - 1], user, month, year, x);
      var e := es[|es| - 1];
      if ExpenseInMonth(e, user, month, year) && CategoryNameOf(cats, e.categoryId).Some? {
        AddShareOf(groups, CategoryNameOf(cats, e.categoryId).value, e.amount, x);
      }
    }
  }

  /** A name has a group exactly when some expense of the month joins a category of that name. */
  lemma InGroupSnoc(cats: seq<Category>, es: seq<Expense>, init: seq<Expense>, last: Expense,
                     user: nat, month: int, year: int, x: string)
    requires es == init + [last]
    ensures (exists k :: 0 <= k < |es| && InGroup(cats, es[k], user, month, year, x))
        <==> (exists k :: 0 <= k < |init| && InGroup(cats, init[k], user, month, year, x))
             || InGroup(cats, last, user, month, year, x)
  {
    if exists k :: 0 <= k < |init| && InGroup(cats, init[k], user, month, year, x) {
      var k :| 0 <= k < |init| && InGroup(cats, init[k], user, month, year, x);
      assert es[k] == init[k];
    }
    if InGroup(cats, last, user, month, year, x) {
      assert es[|init|] == last;
    }
    if exists k :: 0 <= k < |es| && InGroup(cats, es[k], user, month, year, x) {
      var k :| 0 <= k < |es| && InGroup(cats, es[k], user, month, year, x);
      if k < |init| {
        assert init[k] == es[k];
      }
    }
  }


  lemma {:induction false} BreakdownNames(cats: seq<Category>, es: seq<Expense>, user: nat, month: int, year: int, x: string)
    ensures HasName(Breakdown(cats, es, user, month, year), x)
        <==> exists k :: 0 <= k < |es| && InGroup(cats, es[k], user, month, year, x)
    decreases |es|
  {
    if es != [] {
      var init := es[..|es| - 1];
      var groups := Breakdown(cats, init, user, month, year);
      var e := es[|es| - 1];
      BreakdownNames(cats, init, user, month, year, x);
      assert es == init + [e];
      InGroupSnoc(cats, es, init, e, user, month, year, x);
      assert HasName(Breakdown(cats, es, user, month, year), x)
          <==> HasName(groups, x) || InGroup(cats, e, user, month, year, x) by {
        if ExpenseInMonth(e, user, month, year) && CategoryNameOf(cats, e.categoryId).Some? {
          AddShareNames(groups, CategoryNameOf(cats, e.categoryId).value, e.amount, x);
        }
      }
    }
  }


  /** When every expense of the month joins a category, the breakdown accounts for the whole month's expense total. */
  lemma BreakdownCoversMonth(cats: seq<Category>, es: seq<Expense>, user: nat, month: int, year: int)
    requires forall k :: 0 <= k < |es| && ExpenseInMonth(es[k], user, month, year) ==> CategoryNameOf(cats, es[k].categoryId).Some?
    ensures SumShares(Breakdown(cats, es, user, month, year)) == ExpenseTotal(es, user, month, year)
  {
    BreakdownSum(cats, es, user, month, year);
    SumWhereExt(es, e => Joined(cats, e, user, month, year), e => ExpenseInMonth(e, user, month, year), ExpenseAmount);
  }

  predicate SharesPositive(shares: seq<CategoryShare>) {
    forall k :: 0 <= k < |shares| ==> shares[k].amount > 0.0
  }

  lemma {:induction false} AddSharePositive(shares: seq<CategoryShare>, name: string, amount: real)
    requires SharesPositive(shares) && amount > 0.0
    ensures SharesPositive(AddShare(shares, name, amount))
  {
    if shares != [] && shares[0].name != name {
      AddSharePositive(shares[1..], name, amount);
    }
  }

  /** With positive expense amounts every group of the breakdown has a positive sum. */
  lemma {:induction false} BreakdownPositive(cats: seq<Category>, es: seq<Expense>, user: nat, month: int, year: int)
    requires forall k :: 0 <= k < |es| ==> es[k].amount > 0.0
    ensures SharesPositive(Breakdown(cats, es, user, month, year))
    decreases |es|
  {
    if es != [] {
      BreakdownPositive(cats, es[..|es| - 1], user, month, year);
      var groups := Breakdown(cats, es[..|es| - 1], user, month, year);
      var e := es[|es| - 1];
      if ExpenseInMonth(e, user, month, year) && CategoryNameOf(cats, e.categoryId).Some? {
        AddSharePositive(groups, CategoryNameOf(cats, e.categoryId).value, e.amount);
      }
    }
  }

  /** No group of positive sums exceeds their total. */
  lemma {:induction false} ShareAtMostSum(shares: seq<CategoryShare>, k: nat)
    requires SharesPositive(shares) && k < |shares|
    ensures shares[k].amount <= SumShares(shares)
  {
    if k > 0 {
      ShareAtMostSum(shares[1..], k - 1);
    }
    SumSharesPositive(shares[1..]);
  }

  lemma {:induction false} SumSharesPositive(shares: seq<CategoryShare>)
    requires SharesPositive(shares)
    ensures SumShares(shares) >= 0.0
  {
    if shares != [] {
      SumSharesPositive(shares[1..]);
    }
  }
}
