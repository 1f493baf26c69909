/**
 * The category handlers (app/routes/categories.py): adding a category
 * under a name unique among the user's own, and deleting one of the
 * user's categories together with the expenses filed under it.
 */
module CategoryRoutes {
  import opened Wrappers
  import opened Records
  import opened Calendar
  import opened Queries
  import opened Text
  import opened Store

  // -------------------------------------------------------- add_category

  /** What `add_category` answers with. */
  datatype AddCategoryOutcome =
    | NameTooShort
    | DuplicateName
    | CategoryAdded(id: nat)

  /** `Category.query.filter_by(user_id=user, category_name=name).first()` finds a row: a scan of the table. */
  function NameTaken(cats: seq<Category>, user: nat, name: string): (r: bool)
    ensures r <==> exists k :: 0 <= k < |cats| && cats[k].userId == user && cats[k].name == name
  {
    if cats == [] then false
    else if cats[0].userId == user && cats[0].name == name then true
    else
      assert forall k :: 1 <= k < |cats| ==> cats[k] == cats[1..][k - 1];
      NameTaken(cats[1..], user, name)
  }

  /** The duplicate check is scoped to one user: another user's category never blocks a name. */
  lemma NameTakenPerUser(cats: seq<Category>, c: Category, user: nat, name: string)
    requires c.userId != user
    ensures NameTaken(cats + [c], user, name) <==> NameTaken(cats, user, name)
  {
    if NameTaken(cats + [c], user, name) {
      var k :| 0 <= k < |cats + [c]| && (cats + [c])[k].userId == user && (cats + [c])[k].name == name;
      assert k < |cats| && cats[k] == (cats + [c])[k];
    }
    if NameTaken(cats, user, name) {
      var k :| 0 <= k < |cats| && cats[k].userId == user && cats[k].name == name;
      assert (cats + [c])[k] == cats[k];
    }
  }

  /**
   * `add_category` on a submitted form: the name is stripped; fewer than
   * two characters, then a name the user already has, is refused and
   * writes nothing; otherwise the category is stored under a fresh key.
   */
  method AddCategory(db: Database, user: nat, rawName: string) returns (outcome: AddCategoryOutcome)
    requires db.Valid()
    modifies db`categories
    ensures db.Valid()
    ensures |Strip(rawName)| < 2 ==> outcome == NameTooShort
    ensures |Strip(rawName)| >= 2 && NameTaken(old(db.categories), user, Strip(rawName)) ==> outcome == DuplicateName
    ensures !outcome.CategoryAdded? ==> db.categories == old(db.categories)
    ensures outcome.CategoryAdded? <==> |Strip(rawName)| >= 2 && !NameTaken(old(db.categories), user, Strip(rawName))
    ensures outcome.CategoryAdded? ==>
      && outcome.id == NextId(old(db.categories), CategoryIdOf)
      && db.categories == old(db.categories) + [Category(outcome.id, user, Strip(rawName))]
      && NameTaken(db.categories, user, Strip(rawName))
  {
    var name := Strip(rawName);
    if |name| < 2 {
      return NameTooShort;
    }
    if NameTaken(db.categories, user, name) {
      return DuplicateName;
    }
    var id := NextId(db.categories, CategoryIdOf);
    var c := Category(id, user, name);
    InsertKeepsIdsUnique(db.categories, c, CategoryIdOf);
    db.categories := db.categories + [c];
    outcome := CategoryAdded(id);
    assert db.categories[|db.categories| - 1] == c;
    forall k | 0 <= k < |db.expenses| ensures OwnsCategory(db.categories, db.expenses[k].userId, db.expenses[k].categoryId) {
      assert OwnsCategory(old(db.categories), db.expenses[k].userId, db.expenses[k].categoryId);
      var j :| 0 <= j < |old(db.categories)| && old(db.categories)[j].id == db.expenses[k].categoryId
               && old(db.categories)[j].userId == db.expenses[k].userId;
      assert db.categories[j] == old(db.categories)[j];
    }
  }

  /** Submitting a name again after it was added is refused as a duplicate, whatever surrounding spaces it carries. */
  lemma AddedNameIsTaken(cats: seq<Category>, id: nat, user: nat, rawName: string, again: string)
    requires Strip(again) == Strip(rawName)
    ensures NameTaken(cats + [Category(id, user, Strip(rawName))], user, Strip(again))
  {
    assert (cats + [Category(id, user, Strip(rawName))])[|cats|] == Category(id, user, Strip(rawName));
  }

  // ----------------------------------------------------- delete_category

  /** `Category.query.filter_by(category_id=..., user_id=...).first()`: the index of the user's category with that key. */
  function FindOwnedCategory(cats: seq<Category>, user: nat, categoryId: nat): (r: Option<nat>)
    ensures r.None? <==> !OwnsCategory(cats, user, categoryId)
    ensures r.Some? ==> r.value < |cats| && cats[r.value].id == categoryId && cats[r.value].userId == user
  {
    if cats == [] then None
    else if cats[0].id == categoryId && cats[0].userId == user then Some(0)
    else
      match FindOwnedCategory(cats[1..], user, categoryId)
      case None =>
        assert forall k :: 1 <= k < |cats| ==> cats[k] == cats[1..][k - 1];
        None
      case Some(k) => Some(k + 1)
  }

  function NotInCategory(categoryId: nat): Expense -> bool {
    (e: Expense) => e.categoryId != categoryId
  }

  /** The expenses that survive deleting category `categoryId`. */
  function ExpensesOutsideCategory(es: seq<Expense>, categoryId: nat): (r: seq<Expense>)
    ensures forall k :: 0 <= k < |r| ==> r[k].categoryId != categoryId
    ensures forall e :: e in r <==> e in es && e.categoryId != categoryId
  {
    forall e ensures e in Filter(es, NotInCategory(categoryId)) <==> e in es && e.categoryId != categoryId {
      FilterMembers(es, NotInCategory(categoryId), e);
    }
    Filter(es, NotInCategory(categoryId))
  }

  /**
   * `delete_category` as its docstring and message announce it: a
   * category the user does not own is a 404 and nothing changes;
   * otherwise its row is removed and the expenses filed under it go with
   * it. This is the one handler that writes two tables.
   */
  method DeleteCategory(db: Database, user: nat, categoryId: nat) returns (deleted: bool)
    requires db.Valid()
    modifies db`categories, db`expenses
    ensures db.Valid()
    ensures deleted <==> OwnsCategory(old(db.categories), user, categoryId)
    ensures !deleted ==> db.categories == old(db.categories) && db.expenses == old(db.expenses)
    ensures deleted ==>
      && db.categories == RemoveAt(old(db.categories), FindOwnedCategory(old(db.categories), user, categoryId).value)
      && db.expenses == ExpensesOutsideCategory(old(db.expenses), categoryId)
      && (forall k :: 0 <= k < |db.categories| ==> db.categories[k].id != categoryId)
  {
    var found := FindOwnedCategory(db.categories, user, categoryId);
    if found.None? {
      return false;
    }
    var k := found.value;
    ghost var cats := db.categories;
    ghost var es := db.expenses;
    db.categories := RemoveAt(db.categories, k);
    db.expenses := ExpensesOutsideCategory(db.expenses, categoryId);
    deleted := true;

    RemoveCategoryKeepsKeys(cats, k);
    CascadeKeepsExpensesFiled(cats, es, k);
  }

  // ------------------------------------------- delete_category as written

  /** Some expense is filed under category `categoryId`. */
  predicate FiledUnder(es: seq<Expense>, categoryId: nat) {
    exists k :: 0 <= k < |es| && es[k].categoryId == categoryId
  }

  /** How `delete_category` ends as the code stands. */
  datatype DeleteOutcome =
    | CategoryNotFound
    | CommitRejected
    | CategoryDeleted

  /** The outcome together with the two tables after the request. */
  datatype DeleteResult = DeleteResult(outcome: DeleteOutcome, categories: seq<Category>, expenses: seq<Expense>)

  /**
   * `delete_category` as the code stands. The relationship from a category
   * to its expenses has no delete cascade, so deleting the category makes
   * the ORM set `category_id` of its expenses to NULL; that column is NOT
   * NULL, so the commit fails and the session rolls back. A category that
   * still has expenses is never removed, and neither are its expenses;
   * only a category without expenses goes.
   */
  function DeleteCategoryAsWritten(cats: seq<Category>, es: seq<Expense>, user: nat, categoryId: nat): (r: DeleteResult)
    ensures r.outcome == CategoryNotFound <==> !OwnsCategory(cats, user, categoryId)
    ensures r.outcome == CommitRejected <==> OwnsCategory(cats, user, categoryId) && FiledUnder(es, categoryId)
    ensures r.expenses == es
    ensures r.outcome != CategoryDeleted ==> r.categories == cats
    ensures r.outcome == CategoryDeleted ==>
      r.categories == RemoveAt(cats, FindOwnedCategory(cats, user, categoryId).value)
  {
    match FindOwnedCategory(cats, user, categoryId)
    case None => DeleteResult(CategoryNotFound, cats, es)
    case Some(k) =>
      if FiledUnder(es, categoryId) then DeleteResult(CommitRejected, cats, es)
      else DeleteResult(CategoryDeleted, RemoveAt(cats, k), es)
  }

  /** Nothing is dropped from a table none of whose expenses is filed under the category. */
  lemma {:induction false} OutsideUnfiledIsAll(es: seq<Expense>, categoryId: nat)
    requires !FiledUnder(es, categoryId)
    ensures ExpensesOutsideCategory(es, categoryId) == es
  {
    if es != [] {
      assert es[0].categoryId != categoryId;
      assert !FiledUnder(es[1..], categoryId) by {
        forall k | 0 <= k < |es[1..]| ensures es[1..][k].categoryId != categoryId {
          assert es[1..][k] == es[k + 1];
        }
      }
      OutsideUnfiledIsAll(es[1..], categoryId);
      assert es == [es[0]] + es[1..];
    }
  }

  /** For a category without expenses the code does what the handler announces. */
  lemma AsWrittenAgreesWhenUnfiled(cats: seq<Category>, es: seq<Expense>, user: nat, categoryId: nat)
    requires OwnsCategory(cats, user, categoryId) && !FiledUnder(es, categoryId)
    ensures var r := DeleteCategoryAsWritten(cats, es, user, categoryId);
      && r.outcome == CategoryDeleted
      && r.categories == RemoveAt(cats, FindOwnedCategory(cats, user, categoryId).value)
      && r.expenses == ExpensesOutsideCategory(es, categoryId)
  {
    OutsideUnfiledIsAll(es, categoryId);
  }

  /**
   * For a category with expenses the code keeps the category and every
   * expense filed under it, where the announced deletion removes both.
   */
  lemma AsWrittenKeepsFiledCategory(cats: seq<Category>, es: seq<Expense>, user: nat, categoryId: nat)
    requires OwnsCategory(cats, user, categoryId) && FiledUnder(es, categoryId)
    ensures var r := DeleteCategoryAsWritten(cats, es, user, categoryId);
      && r.outcome == CommitRejected
      && OwnsCategory(r.categories, user, categoryId)
      && FiledUnder(r.expenses, categoryId)
      && r.categories != RemoveAt(cats, FindOwnedCategory(cats, user, categoryId).value)
      && r.expenses != ExpensesOutsideCategory(es, categoryId)
  {
    var k :| 0 <= k < |es| && es[k].categoryId == categoryId;
    assert es[k] !in ExpensesOutsideCategory(es, categoryId);
  }

  /** One user, one category, one expense under it: deleting the category changes nothing. */
  lemma AsWrittenRefusesExample()
    ensures var cats := [Category(1, 1, "Food")];
      var es := [Expense(1, 1, 1, 12.5, Date(2024, 3, 1), "lunch")];
      DeleteCategoryAsWritten(cats, es, 1, 1) == DeleteResult(CommitRejected, cats, es)
  {
    var cats := [Category(1, 1, "Food")];
    var es := [Expense(1, 1, 1, 12.5, Date(2024, 3, 1), "lunch")];
    assert OwnsCategory(cats, 1, 1) by { assert cats[0].id == 1 && cats[0].userId == 1; }
    assert FiledUnder(es, 1) by { assert es[0].categoryId == 1; }
  }

  /** Removing a category row keeps keys and names unique and leaves no row with its key. */
  lemma RemoveCategoryKeepsKeys(cats: seq<Category>, k: nat)
    requires k < |cats|
    requires IdsUnique(cats, CategoryIdOf) && CategoryNamesUnique(cats)
    ensures var r := RemoveAt(cats, k);
      && IdsUnique(r, CategoryIdOf) && CategoryNamesUnique(r)
      && (forall i :: 0 <= i < |r| ==> r[i].id != cats[k].id)
  {
    var r := RemoveAt(cats, k);
    PairwiseRemoveAt(cats, k, (a: Category, b: Category) => CategoryIdOf(a) != CategoryIdOf(b));
    forall i | 0 <= i < |r| ensures r[i].id != cats[k].id {
      var j := if i < k then i else i + 1;
      assert r[i] == cats[j] && j != k;
      assert CategoryIdOf(cats[if j < k then j else k]) != CategoryIdOf(cats[if j < k then k else j]);
    }
    forall a, b | 0 <= a < b < |r| ensures r[a].userId != r[b].userId || r[a].name != r[b].name {
      assert r[a] == cats[if a < k then a else a + 1];
      assert r[b] == cats[if b < k then b else b + 1];
    }
  }

  /**
   * Removing category `k` with the expenses filed under it leaves every
   * remaining expense well formed and filed under a remaining category of
   * its own user.
   */
  lemma CascadeKeepsExpensesFiled(cats: seq<Category>, es: seq<Expense>, k: nat)
    requires k < |cats|
    requires IdsUnique(cats, CategoryIdOf)
    requires IdsUnique(es, ExpenseIdOf) && ExpensesWellFormed(es) && ExpensesInOwnCategories(es, cats)
    ensures var r := ExpensesOutsideCategory(es, cats[k].id);
      && IdsUnique(r, ExpenseIdOf) && ExpensesWellFormed(r)
      && ExpensesInOwnCategories(r, RemoveAt(cats, k))
  {
    var r := ExpensesOutsideCategory(es, cats[k].id);
    var rest := RemoveAt(cats, k);
    PairwiseFilter(es, NotInCategory(cats[k].id), (a: Expense, b: Expense) => ExpenseIdOf(a) != ExpenseIdOf(b));
    forall i | 0 <= i < |r|
      ensures r[i].amount > 0.0 && IsCalendarDate(r[i].date)
      ensures OwnsCategory(rest, r[i].userId, r[i].categoryId)
    {
      var e := r[i];
      assert e in es;
      var m :| 0 <= m < |es| && es[m] == e;
      assert OwnsCategory(cats, e.userId, e.categoryId);
      var j :| 0 <= j < |cats| && cats[j].id == e.categoryId && cats[j].userId == e.userId;
      assert j != k;
      var i' := if j < k then j else j - 1;
      assert rest[i'] == cats[j];
    }
  }
}
