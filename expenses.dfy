/**
 * The expense handlers (app/routes/expenses.py): the filtered, paginated
 * listing, and adding, editing and deleting one of the user's expenses.
 */
module ExpenseRoutes {
  import opened Wrappers
  import opened Records
  import opened Calendar
  import opened Queries
  import opened Text
  import opened Store

  // ------------------------------------------------------- list_expenses

  /** A query-string filter counts only when it parsed and is non-zero (Python truthiness). */
  predicate Active(filter: Option<int>) {
    filter.Some? && filter.value != 0
  }

  function OfUser(user: nat): Expense -> bool {
    (e: Expense) => e.userId == user
  }

  function InCategory(category: int): Expense -> bool {
    (e: Expense) => e.categoryId == category
  }

  function InMonth(month: int): Expense -> bool {
    (e: Expense) => e.date.month == month
  }

  function InYear(year: int): Expense -> bool {
    (e: Expense) => e.date.year == year
  }

  /** An expense the listing should show: the user's own, and agreeing with every active filter. */
  predicate Matches(e: Expense, user: nat, category: Option<int>, month: Option<int>, year: Option<int>) {
    && e.userId == user
    && (Active(category) ==> e.categoryId == category.value)
    && (Active(month) ==> e.date.month == month.value)
    && (Active(year) ==> e.date.year == year.value)
  }

  function Matching(user: nat, category: Option<int>, month: Option<int>, year: Option<int>): Expense -> bool {
    (e: Expense) => Matches(e, user, category, month, year)
  }

  function WithCategory(user: nat, category: Option<int>): Expense -> bool {
    (e: Expense) => Matches(e, user, category, None, None)
  }

  function WithMonth(user: nat, category: Option<int>, month: Option<int>): Expense -> bool {
    (e: Expense) => Matches(e, user, category, month, None)
  }

  function ExpenseDateKey(e: Expense): int {
    DateKey(e.date)
  }

  /** What `list_expenses` shows: the matching expenses, newest date first, ten to a page. */
  function ListExpenses(es: seq<Expense>, user: nat, page: int, category: Option<int>, month: Option<int>, year: Option<int>)
    : (r: Page<Expense>)
    ensures page == 1 ==> r.Page?
    ensures r.Page? ==> |r.items| <= PerPage && r.total <= |es|
  {
    Paginate(SortDesc(Filter(es, Matching(user, category, month, year)), ExpenseDateKey), page)
  }

  /** Narrowing the user's expenses by the category filter, when it is active. */
  lemma NarrowByCategory(es: seq<Expense>, user: nat, category: Option<int>)
    ensures Active(category) ==>
      Filter(Filter(es, OfUser(user)), InCategory(category.value)) == Filter(es, WithCategory(user, category))
    ensures !Active(category) ==> Filter(es, OfUser(user)) == Filter(es, WithCategory(user, category))
  {
    if Active(category) {
      FilterFilter(es, OfUser(user), InCategory(category.value), WithCategory(user, category));
    } else {
      FilterExt(es, OfUser(user), WithCategory(user, category));
    }
  }

  /** Narrowing further by the month filter, when it is active. */
  lemma NarrowByMonth(es: seq<Expense>, user: nat, category: Option<int>, month: Option<int>)
    ensures Active(month) ==>
      Filter(Filter(es, WithCategory(user, category)), InMonth(month.value)) == Filter(es, WithMonth(user, category, month))
    ensures !Active(month) ==> Filter(es, WithCategory(user, category)) == Filter(es, WithMonth(user, category, month))
  {
    if Active(month) {
      FilterFilter(es, WithCategory(user, category), InMonth(month.value), WithMonth(user, category, month));
    } else {
      FilterExt(es, WithCategory(user, category), WithMonth(user, category, month));
    }
  }

  /** Narrowing further by the year filter, when it is active. */
  lemma NarrowByYear(es: seq<Expense>, user: nat, category: Option<int>, month: Option<int>, year: Option<int>)
    ensures Active(year) ==>
      Filter(Filter(es, WithMonth(user, category, month)), InYear(year.value)) == Filter(es, Matching(user, category, month, year))
    ensures !Active(year) ==> Filter(es, WithMonth(user, category, month)) == Filter(es, Matching(user, category, month, year))
  {
    if Active(year) {
      FilterFilter(es, WithMonth(user, category, month), InYear(year.value), Matching(user, category, month, year));
    } else {
      FilterExt(es, WithMonth(user, category, month), Matching(user, category, month, year));
    }
  }

  /**
   * `list_expenses`: the query starts from the user's expenses and is
   * narrowed by each active filter in turn, then ordered and paginated;
   * the page is the one of the conjunctive listing.
   */
  method ListExpensesQuery(es: seq<Expense>, user: nat, page: int, category: Option<int>, month: Option<int>, year: Option<int>)
    returns (result: Page<Expense>)
    ensures result == ListExpenses(es, user, page, category, month, year)
  {
    var query := Filter(es, OfUser(user));
    NarrowByCategory(es, user, category);
    if Active(category) {
      query := Filter(query, InCategory(category.value));
    }
    NarrowByMonth(es, user, category, month);
    if Active(month) {
      query := Filter(query, InMonth(month.value));
    }
    NarrowByYear(es, user, category, month, year);
    if Active(year) {
      query := Filter(query, InYear(year.value));
    }
    result := Paginate(SortDesc(query, ExpenseDateKey), page);
  }

  /** A page of the listing holds only matching expenses of the table, newest first. */
  lemma ListedExpensesMatch(es: seq<Expense>, user: nat, page: int, category: Option<int>, month: Option<int>, year: Option<int>)
    ensures var r := ListExpenses(es, user, page, category, month, year);
      r.Page? ==>
        && (forall k :: 0 <= k < |r.items| ==> r.items[k] in es && Matches(r.items[k], user, category, month, year))
        && (forall i, j :: 0 <= i < j < |r.items| ==> DateKey(r.items[i].date) >= DateKey(r.items[j].date))
  {
    PageOfSortedFilter(es, Matching(user, category, month, year), ExpenseDateKey, page);
  }

  /** Every matching expense is shown on some page of the listing. */
  lemma EveryMatchIsListed(es: seq<Expense>, user: nat, category: Option<int>, month: Option<int>, year: Option<int>, e: Expense)
    requires e in es && Matches(e, user, category, month, year)
    ensures exists page :: page >= 1 && ListExpenses(es, user, page, category, month, year).Page? &&
                           e in ListExpenses(es, user, page, category, month, year).items
  {
    var keep := Matching(user, category, month, year);
    FilteredRowIsListed(es, keep, ExpenseDateKey, e);
    var page :| page >= 1 && Paginate(SortDesc(Filter(es, keep), ExpenseDateKey), page).Page? &&
                e in Paginate(SortDesc(Filter(es, keep), ExpenseDateKey), page).items;
    assert ListExpenses(es, user, page, category, month, year) == Paginate(SortDesc(Filter(es, keep), ExpenseDateKey), page);
  }

  // --------------------------------------------------------- add_expense

  /** What `add_expense` and `edit_expense` answer with. */
  datatype ExpenseOutcome =
    | NoCategories
    | NotFound
    | AmountNotPositive
    | InvalidCategory
    | InvalidDate
    | ExpenseSaved(id: nat)

  predicate HasCategories(cats: seq<Category>, user: nat) {
    exists k :: 0 <= k < |cats| && cats[k].userId == user
  }

  /**
   * The checks `add_expense` and `edit_expense` make of a submitted form,
   * in their order: the first that fails, or None when the form is accepted.
   */
  function FormError(cats: seq<Category>, user: nat, amount: real, categoryId: nat, date: Date): (r: Option<ExpenseOutcome>)
    ensures r.None? <==> amount > 0.0 && OwnsCategory(cats, user, categoryId) && IsCalendarDate(date)
    ensures amount <= 0.0 ==> r == Some(AmountNotPositive)
    ensures amount > 0.0 && !OwnsCategory(cats, user, categoryId) ==> r == Some(InvalidCategory)
    ensures amount > 0.0 && OwnsCategory(cats, user, categoryId) && !IsCalendarDate(date) ==> r == Some(InvalidDate)
  {
    if amount <= 0.0 then Some(AmountNotPositive)
    else if !OwnsCategory(cats, user, categoryId) then Some(InvalidCategory)
    else if !IsCalendarDate(date) then Some(InvalidDate)
    else None
  }

  /** The row `add_expense` stores. */
  function NewExpense(es: seq<Expense>, user: nat, amount: real, categoryId: nat, date: Date, rawDescription: string): Expense {
    Expense(NextId(es, ExpenseIdOf), user, categoryId, amount, date, Strip(rawDescription))
  }

  /**
   * `add_expense` on a submitted form: refused when the user has no
   * category, then by the first failing form check; otherwise the expense
   * is stored with its description stripped. Only the last case writes.
   */
  method AddExpense(db: Database, user: nat, amount: real, categoryId: nat, date: Date, rawDescription: string)
    returns (outcome: ExpenseOutcome)
    requires db.Valid()
    modifies db`expenses
    ensures db.Valid()
    ensures !HasCategories(db.categories, user) ==> outcome == NoCategories
    ensures HasCategories(db.categories, user) && FormError(db.categories, user, amount, categoryId, date).Some? ==>
      outcome == FormError(db.categories, user, amount, categoryId, date).value
    ensures outcome.ExpenseSaved? <==>
      HasCategories(db.categories, user) && FormError(db.categories, user, amount, categoryId, date).None?
    ensures !outcome.ExpenseSaved? ==> db.expenses == old(db.expenses)
    ensures outcome.ExpenseSaved? ==>
      && outcome.id == NextId(old(db.expenses), ExpenseIdOf)
      && db.expenses == old(db.expenses) + [NewExpense(old(db.expenses), user, amount, categoryId, date, rawDescription)]
  {
    if !HasCategories(db.categories, user) {
      return NoCategories;
    }
    var error := FormError(db.categories, user, amount, categoryId, date);
    if error.Some? {
      return error.value;
    }
    var e := NewExpense(db.expenses, user, amount, categoryId, date, rawDescription);
    db.InsertExpense(e);
    outcome := ExpenseSaved(e.id);
  }

  // ------------------------------------------------- edit and delete

  /** `Expense.query.filter_by(expense_id=..., user_id=...).first()`: the index of the user's expense with that key. */
  function FindOwnedExpense(es: seq<Expense>, user: nat, expenseId: nat): (r: Option<nat>)
    ensures r.None? <==> forall k :: 0 <= k < |es| ==> es[k].id != expenseId || es[k].userId != user
    ensures r.Some? ==> r.value < |es| && es[r.value].id == expenseId && es[r.value].userId == user
  {
    if es == [] then None
    else if es[0].id == expenseId && es[0].userId == user then Some(0)
    else
      match FindOwnedExpense(es[1..], user, expenseId)
      case None =>
        assert forall k :: 1 <= k < |es| ==> es[k] == es[1..][k - 1];
        None
      case Some(k) => Some(k + 1)
  }

  /** The expense after `edit_expense` overwrites its four form fields. */
  function Edited(e: Expense, amount: real, categoryId: nat, date: Date, rawDescription: string): (r: Expense)
    ensures r.id == e.id && r.userId == e.userId
  {
    e.(amount := amount, categoryId := categoryId, date := date, description := Strip(rawDescription))
  }

  /**
   * `edit_expense` on a submitted form: an expense the user does not own
   * is a 404; then the amount, category and date are checked as when
   * adding; a date that does not parse aborts before the commit, so
   * nothing is written. Otherwise only that row changes, in its four fields.
   */
  method EditExpense(db: Database, user: nat, expenseId: nat, amount: real, categoryId: nat, date: Date,
                     rawDescription: string) returns (outcome: ExpenseOutcome)
    requires db.Valid()
    modifies db`expenses
    ensures db.Valid()
    ensures FindOwnedExpense(old(db.expenses), user, expenseId).None? ==> outcome == NotFound
    ensures FindOwnedExpense(old(db.expenses), user, expenseId).Some? && FormError(db.categories, user, amount, categoryId, date).Some? ==>
      outcome == FormError(db.categories, user, amount, categoryId, date).value
    ensures outcome.ExpenseSaved? <==>
      FindOwnedExpense(old(db.expenses), user, expenseId).Some? && FormError(db.categories, user, amount, categoryId, date).None?
    ensures !outcome.ExpenseSaved? ==> db.expenses == old(db.expenses)
    ensures outcome.ExpenseSaved? ==>
      var k := FindOwnedExpense(old(db.expenses), user, expenseId).value;
      && outcome.id == expenseId
      && db.expenses == old(db.expenses)[k := Edited(old(db.expenses)[k], amount, categoryId, date, rawDescription)]
  {
    var found := FindOwnedExpense(db.expenses, user, expenseId);
    if found.None? {
      return NotFound;
    }
    var error := FormError(db.categories, user, amount, categoryId, date);
    if error.Some? {
      return error.value;
    }
    var k := found.value;
    db.ReplaceExpense(k, Edited(db.expenses[k], amount, categoryId, date, rawDescription));
    outcome := ExpenseSaved(expenseId);
  }

  /** `delete_expense`: an expense the user does not own is a 404; otherwise exactly that row is removed. */
  method DeleteExpense(db: Database, user: nat, expenseId: nat) returns (deleted: bool)
    requires db.Valid()
    modifies db`expenses
    ensures db.Valid()
    ensures deleted <==> FindOwnedExpense(old(db.expenses), user, expenseId).Some?
    ensures !deleted ==> db.expenses == old(db.expenses)
    ensures deleted ==> db.expenses == RemoveAt(old(db.expenses), FindOwnedExpense(old(db.expenses), user, expenseId).value)
  {
    var found := FindOwnedExpense(db.expenses, user, expenseId);
    if found.None? {
      return false;
    }
    var k := found.value;
    db.DeleteExpense(k);
    deleted := true;
  }

  /** Deleting an expense by its key leaves no row with that key, when keys are unique. */
  lemma DeleteRemovesKey(es: seq<Expense>, user: nat, expenseId: nat)
    requires IdsUnique(es, ExpenseIdOf)
    requires FindOwnedExpense(es, user, expenseId).Some?
    ensures var r := RemoveAt(es, FindOwnedExpense(es, user, expenseId).value);
      forall i :: 0 <= i < |r| ==> r[i].id != expenseId
  {
    var k := FindOwnedExpense(es, user, expenseId).value;
    var r := RemoveAt(es, k);
    forall i | 0 <= i < |r| ensures r[i].id != expenseId {
      var j := if i < k then i else i + 1;
      assert r[i] == es[j];
      assert ExpenseIdOf(es[if j < k then j else k]) != ExpenseIdOf(es[if j < k then k else j]);
    }
  }
}
