/**
 * The database the route handlers change: one table per model class, each
 * held as a sequence of rows, and the constraints the schema declares or
 * the handlers maintain.
 */
module Store {
  import opened Records
  import opened Calendar
  import opened Queries

  // ------------------------------------------------ pairwise constraints

  /** `ok` holds of every two rows, taken in table order. */
  ghost predicate Pairwise<T>(s: seq<T>, ok: (T, T) -> bool) {
    forall i, j :: 0 <= i < j < |s| ==> ok(s[i], s[j])
  }

  /** The table without its row at index `k`. */
  function RemoveAt<T>(s: seq<T>, k: nat): (r: seq<T>)
    requires k < |s|
    ensures |r| == |s| - 1
    ensures forall i :: 0 <= i < |r| ==> r[i] == s[if i < k then i else i + 1]
  {
    s[..k] + s[k + 1..]
  }

  lemma PairwiseAppend<T>(s: seq<T>, x: T, ok: (T, T) -> bool)
    requires Pairwise(s, ok)
    requires forall k :: 0 <= k < |s| ==> ok(s[k], x)
    ensures Pairwise(s + [x], ok)
  {
  }

  lemma PairwiseRemoveAt<T>(s: seq<T>, k: nat, ok: (T, T) -> bool)
    requires k < |s| && Pairwise(s, ok)
    ensures Pairwise(RemoveAt(s, k), ok)
  {
    var r := RemoveAt(s, k);
    forall i, j | 0 <= i < j < |r| ensures ok(r[i], r[j]) {
      assert r[i] == s[if i < k then i else i + 1];
      assert r[j] == s[if j < k then j else j + 1];
    }
  }

  lemma PairwiseCons<T>(h: T, t: seq<T>, ok: (T, T) -> bool)
    requires Pairwise(t, ok)
    requires forall k :: 0 <= k < |t| ==> ok(h, t[k])
    ensures Pairwise([h] + t, ok)
  {
    var r := [h] + t;
    forall i, j | 0 <= i < j < |r| ensures ok(r[i], r[j]) {
      assert r[j] == t[j - 1];
      if i > 0 {
        assert r[i] == t[i - 1];
      }
    }
  }

  lemma {:induction false} PairwiseFilter<T>(s: seq<T>, keep: T -> bool, ok: (T, T) -> bool)
    requires Pairwise(s, ok)
    ensures Pairwise(Filter(s, keep), ok)
  {
    if s != [] {
      var tail := s[1..];
      assert Pairwise(tail, ok) by {
        forall i, j | 0 <= i < j < |tail| ensures ok(tail[i], tail[j]) {
          assert tail[i] == s[i + 1] && tail[j] == s[j + 1];
        }
      }
      PairwiseFilter(tail, keep, ok);
      var t := Filter(tail, keep);
      if keep(s[0]) {
        forall k | 0 <= k < |t| ensures ok(s[0], t[k]) {
          FilterMembers(tail, keep, t[k]);
          var j :| 0 <= j < |tail| && tail[j] == t[k];
          assert s[j + 1] == t[k];
        }
        PairwiseCons(s[0], t, ok);
        assert Filter(s, keep) == [s[0]] + t;
      } else {
        assert Filter(s, keep) == t;
      }
    }
  }


  // --------------------------------------------------------- primary keys

  /** No two rows share a primary key. */
  ghost predicate IdsUnique<T>(rows: seq<T>, id: T -> nat) {
    Pairwise(rows, (a: T, b: T) => id(a) != id(b))
  }

  function MaxId<T>(rows: seq<T>, id: T -> nat): (m: nat)
    ensures forall k :: 0 <= k < |rows| ==> id(rows[k]) <= m
  {
    if rows == [] then 0
    else
      var m := MaxId(rows[1..], id);
      assert forall k :: 1 <= k < |rows| ==> rows[k] == rows[1..][k - 1];
      if id(rows[0]) > m then id(rows[0]) else m
  }

  /** The key SQLite gives the next inserted row: one more than the largest key in use. */
  function NextId<T>(rows: seq<T>, id: T -> nat): (n: nat)
    ensures n > 0
    ensures forall k :: 0 <= k < |rows| ==> id(rows[k]) < n
  {
    MaxId(rows, id) + 1
  }

  /** Inserting a row under the next key keeps the keys unique. */
  lemma InsertKeepsIdsUnique<T>(rows: seq<T>, x: T, id: T -> nat)
    requires IdsUnique(rows, id)
    requires id(x) == NextId(rows, id)
    ensures IdsUnique(rows + [x], id)
  {
    PairwiseAppend(rows, x, (a: T, b: T) => id(a) != id(b));
  }

  // --------------------------------------------------- table constraints

  /** `users.email` is declared `unique=True`. */
  predicate EmailsUnique(users: seq<User>) {
    forall i, j :: 0 <= i < j < |users| ==> users[i].email != users[j].email
  }

  /** `UniqueConstraint('user_id', 'category_name')`. */
  ghost predicate CategoryNamesUnique(cats: seq<Category>) {
    forall i, j :: 0 <= i < j < |cats| ==> cats[i].userId != cats[j].userId || cats[i].name != cats[j].name
  }

  /** `UniqueConstraint('user_id', 'month', 'year')`. */
  ghost predicate BudgetKeysUnique(bs: seq<Budget>) {
    forall i, j :: 0 <= i < j < |bs| ==>
      bs[i].userId != bs[j].userId || bs[i].month != bs[j].month || bs[i].year != bs[j].year
  }

  /** The user owns a category with this id: `Category.query.filter_by(category_id=..., user_id=...).first()` finds a row. */
  predicate OwnsCategory(cats: seq<Category>, user: nat, categoryId: nat) {
    exists k :: 0 <= k < |cats| && cats[k].id == categoryId && cats[k].userId == user
  }

  /** Every expense is filed under a category of its own user. */
  ghost predicate ExpensesInOwnCategories(es: seq<Expense>, cats: seq<Category>) {
    forall k :: 0 <= k < |es| ==> OwnsCategory(cats, es[k].userId, es[k].categoryId)
  }

  /** What the add and edit handlers let into the money tables: positive amounts and calendar dates. */
  ghost predicate ExpensesWellFormed(es: seq<Expense>) {
    forall k :: 0 <= k < |es| ==> es[k].amount > 0.0 && IsCalendarDate(es[k].date)
  }

  ghost predicate IncomesWellFormed(ins: seq<Income>) {
    forall k :: 0 <= k < |ins| ==> ins[k].amount > 0.0 && IsCalendarDate(ins[k].date)
  }

  ghost predicate BudgetsWellFormed(bs: seq<Budget>) {
    forall k :: 0 <= k < |bs| ==> bs[k].amount > 0.0 && 1 <= bs[k].month <= 12
  }

  /** Appending an expense that is well formed and filed under a category of its own user keeps the expense constraints. */
  lemma AppendExpenseKeepsConstraints(es: seq<Expense>, cats: seq<Category>, e: Expense)
    requires IdsUnique(es, ExpenseIdOf) && ExpensesWellFormed(es) && ExpensesInOwnCategories(es, cats)
    requires e.id == NextId(es, ExpenseIdOf)
    requires e.amount > 0.0 && IsCalendarDate(e.date) && OwnsCategory(cats, e.userId, e.categoryId)
    ensures IdsUnique(es + [e], ExpenseIdOf) && ExpensesWellFormed(es + [e]) && ExpensesInOwnCategories(es + [e], cats)
  {
    InsertKeepsIdsUnique(es, e, ExpenseIdOf);
    assert forall k :: 0 <= k < |es| ==> (es + [e])[k] == es[k];
    assert (es + [e])[|es|] == e;
  }

  /** Overwriting a row with a well-formed one under the same key, filed under its user's category, keeps the expense constraints. */
  lemma ReplaceExpenseKeepsConstraints(es: seq<Expense>, cats: seq<Category>, k: nat, e: Expense)
    requires k < |es|
    requires IdsUnique(es, ExpenseIdOf) && ExpensesWellFormed(es) && ExpensesInOwnCategories(es, cats)
    requires e.id == es[k].id
    requires e.amount > 0.0 && IsCalendarDate(e.date) && OwnsCategory(cats, e.userId, e.categoryId)
    ensures var r := es[k := e];
      IdsUnique(r, ExpenseIdOf) && ExpensesWellFormed(r) && ExpensesInOwnCategories(r, cats)
  {
    var r := es[k := e];
    forall a, b | 0 <= a < b < |r| ensures ExpenseIdOf(r[a]) != ExpenseIdOf(r[b]) {
      assert ExpenseIdOf(r[a]) == ExpenseIdOf(es[a]) && ExpenseIdOf(r[b]) == ExpenseIdOf(es[b]);
    }
  }

  /** Removing a row keeps the expense constraints. */
  lemma RemoveExpenseKeepsConstraints(es: seq<Expense>, cats: seq<Category>, k: nat)
    requires k < |es|
    requires IdsUnique(es, ExpenseIdOf) && ExpensesWellFormed(es) && ExpensesInOwnCategories(es, cats)
    ensures var r := RemoveAt(es, k);
      IdsUnique(r, ExpenseIdOf) && ExpensesWellFormed(r) && ExpensesInOwnCategories(r, cats)
  {
    var r := RemoveAt(es, k);
    PairwiseRemoveAt(es, k, (a: Expense, b: Expense) => ExpenseIdOf(a) != ExpenseIdOf(b));
    forall i | 0 <= i < |r|
      ensures r[i].amount > 0.0 && IsCalendarDate(r[i].date)
      ensures OwnsCategory(cats, r[i].userId, r[i].categoryId)
    {
      assert r[i] == es[if i < k then i else i + 1];
    }
  }

  /** Appending a well-formed income row under the next key keeps the income constraints. */
  lemma AppendIncomeKeepsConstraints(ins: seq<Income>, i: Income)
    requires IdsUnique(ins, IncomeIdOf) && IncomesWellFormed(ins)
    requires i.id == NextId(ins, IncomeIdOf)
    requires i.amount > 0.0 && IsCalendarDate(i.date)
    ensures IdsUnique(ins + [i], IncomeIdOf) && IncomesWellFormed(ins + [i])
  {
    InsertKeepsIdsUnique(ins, i, IncomeIdOf);
    assert forall k :: 0 <= k < |ins| ==> (ins + [i])[k] == ins[k];
  }

  class Database {
    var users: seq<User>
    var categories: seq<Category>
    var expenses: seq<Expense>
    var incomes: seq<Income>
    var budgets: seq<Budget>

    /** The schema's keys and unique constraints, and what the handlers' validation guarantees. */
    ghost predicate Valid()
      reads this
    {
      && IdsUnique(users, UserIdOf) && EmailsUnique(users)
      && IdsUnique(categories, CategoryIdOf) && CategoryNamesUnique(categories)
      && IdsUnique(expenses, ExpenseIdOf) && ExpensesWellFormed(expenses)
      && ExpensesInOwnCategories(expenses, categories)
      && IdsUnique(incomes, IncomeIdOf) && IncomesWellFormed(incomes)
      && IdsUnique(budgets, BudgetIdOf) && BudgetKeysUnique(budgets) && BudgetsWellFormed(budgets)
    }

    /** `db.create_all()` on an empty database. */
    constructor ()
      ensures Valid()
      ensures users == [] && categories == [] && expenses == [] && incomes == [] && budgets == []
    {
      users, categories, expenses, incomes, budgets := [], [], [], [], [];
    }

    /** `db.session.add(expense); db.session.commit()` for a row that meets the expense constraints. */
    method InsertExpense(e: Expense)
      requires Valid()
      requires e.id == NextId(expenses, ExpenseIdOf)
      requires e.amount > 0.0 && IsCalendarDate(e.date) && OwnsCategory(categories, e.userId, e.categoryId)
      modifies this`expenses
      ensures Valid()
      ensures expenses == old(expenses) + [e]
    {
      AppendExpenseKeepsConstraints(expenses, categories, e);
      expenses := expenses + [e];
    }

    /** Committing changed fields of the loaded row `k`; its key stays. */
    method ReplaceExpense(k: nat, e: Expense)
      requires Valid()
      requires k < |expenses| && e.id == expenses[k].id
      requires e.amount > 0.0 && IsCalendarDate(e.date) && OwnsCategory(categories, e.userId, e.categoryId)
      modifies this`expenses
      ensures Valid()
      ensures expenses == old(expenses)[k := e]
    {
      ReplaceExpenseKeepsConstraints(expenses, categories, k, e);
      expenses := expenses[k := e];
    }

    /** `db.session.delete(expense); db.session.commit()` for row `k`. */
    method DeleteExpense(k: nat)
      requires Valid() && k < |expenses|
      modifies this`expenses
      ensures Valid()
      ensures expenses == RemoveAt(old(expenses), k)
    {
      RemoveExpenseKeepsConstraints(expenses, categories, k);
      expenses := RemoveAt(expenses, k);
    }

    /** `db.session.add(income); db.session.commit()` for a well-formed row. */
    method InsertIncome(i: Income)
      requires Valid()
      requires i.id == NextId(incomes, IncomeIdOf)
      requires i.amount > 0.0 && IsCalendarDate(i.date)
      modifies this`incomes
      ensures Valid()
      ensures incomes == old(incomes) + [i]
    {
      AppendIncomeKeepsConstraints(incomes, i);
      incomes := incomes + [i];
    }
  }
}
